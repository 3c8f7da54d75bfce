/** What a run does to the files and the pending map, certificate by certificate: the facts that
    the loop of `renew::run` (src/renew.rs:93-135) keeps, on values. */
module Reports {
  import opened Prelude
  import opened Config
  import opened Expiry
  import opened Protocol
  import opened Renew
  import opened RenewCertificate
  import Safety
  import Validation

  /** What the run reports about one certificate: skipped by the name filter, or an outcome with
      the decision that led to it. */
  datatype Report = Skipped | Processed(result: Result<bool, RenewError>, decision: Decision)

  /** What a run is given: the configuration's certificates and the surroundings, whether calls to
      the outside succeed, and the options of the command. */
  datatype Job = Job(setup: Setup, reliable: bool, filter: Option<string>, force: bool, dryRun: bool)
  {
    function Certs(): seq<Certificate> {
      setup.certificates
    }
  }

  predicate Renewed(r: Report) {
    r.Processed? && r.result == Ok(true)
  }

  predicate AnyRenewed(reports: seq<Report>) {
    exists k :: 0 <= k < |reports| && Renewed(reports[k])
  }

  /** The run acted on the certificate of this report. */
  predicate ActedOn(reports: seq<Report>, k: nat) {
    k < |reports| && reports[k].Processed? && reports[k].decision.act
  }

  /** Two maps agree on one key. */
  predicate Agree<T(==)>(key: string, a: map<string, T>, b: map<string, T>) {
    (key in a <==> key in b) && (key in a ==> a[key] == b[key])
  }

  /** What looking at one certificate did. */
  ghost predicate Looked(job: Job, cert: Certificate, report: Report, s: Snapshot, t: Snapshot) {
    && s.disk.now <= t.disk.now && OthersUntouched(cert, s.disk, s.pending, t.disk, t.pending)
    && (report.Skipped? <==> !Selected(job.filter, cert))
    && (report.Skipped? ==> t == s)
    && (report.Processed? ==>
          && s.disk.now <= report.decision.ttlAt <= report.decision.dueAt <= t.disk.now
          && Justified(report.decision, s.pending, s.disk.certs, cert, job.force)
          && Outcome(job.setup.hash, cert, job.dryRun, s, t, report.result, report.decision)
          && (job.reliable ==>
                && Informed(report.decision, s.pending, s.disk.certs, cert, job.force)
                && Dependable(job.setup, cert, job.dryRun, s, t, report.result, report.decision)))
  }

  // ----- The order of the reports -----

  predicate InOrder(job: Job, reports: seq<Report>) {
    && |reports| <= |job.Certs()|
    && (forall k :: 0 <= k < |reports| ==> (reports[k].Skipped? <==> !Selected(job.filter, job.Certs()[k])))
    && (forall k :: 0 <= k < |reports| && reports[k].Processed? && !reports[k].decision.act ==>
          reports[k].result == Ok(false))
  }

  /** All readings of the clock fall within the run. */
  predicate Clocked(reports: seq<Report>, from: Instant, to: Instant) {
    forall k :: 0 <= k < |reports| && reports[k].Processed? ==>
      from <= reports[k].decision.ttlAt <= reports[k].decision.dueAt <= to
  }

  // ----- Entries: which are kept, which are lost -----

  /** An entry that was not acted on is still there. */
  predicate EntriesKept(certs: seq<Certificate>, reports: seq<Report>, before: PendingMap, after: PendingMap) {
    forall k: nat :: k < |certs| && !ActedOn(reports, k) ==>
      certs[k].name in before ==> Agree(certs[k].name, before, after)
  }

  // ----- What a run does not touch -----

  /** What belongs to one certificate: its certificate file, its private key file, its pending key
      file, its entry and its TLSA names. */
  datatype Place =
    | CertFile(path: string)
    | KeyFile(path: string)
    | PendingKeyFile(path: string)
    | Entry(name: string)
    | Rrset(name: string)

  predicate BelongsTo(cert: Certificate, p: Place) {
    match p
    case CertFile(path) => cert.certPath == path
    case KeyFile(path) => KeyLocation(cert) == Some(path)
    case PendingKeyFile(path) => PendingPath(cert.name) == path
    case Entry(name) => cert.name == name
    case Rrset(name) => OwnName(cert, name)
  }

  predicate SameAt(p: Place, d: Durable, pending: PendingMap, e: Durable, after: PendingMap) {
    match p
    case CertFile(path) => Agree(path, d.certs, e.certs)
    case KeyFile(path) => Agree(path, d.keys, e.keys)
    case PendingKeyFile(path) => Agree(path, d.pendingKeys, e.pendingKeys)
    case Entry(name) => Agree(name, pending, after) && Agree(name, pending, e.stateFile)
    case Rrset(name) => LogOf(e.zone, name) == LogOf(d.zone, name)
  }

  predicate OfActedOn(certs: seq<Certificate>, reports: seq<Report>, p: Place) {
    exists k: nat :: ActedOn(reports, k) && k < |certs| && BelongsTo(certs[k], p)
  }

  /** Only what belongs to a certificate acted on has changed. */
  ghost predicate Frame(certs: seq<Certificate>, reports: seq<Report>, d: Durable, pending: PendingMap, e: Durable,
                        after: PendingMap)
  {
    forall p :: !OfActedOn(certs, reports, p) ==> SameAt(p, d, pending, e, after)
  }

  /** What is left of an entry is as it was. */
  predicate EntriesUnchanged(certs: seq<Certificate>, before: PendingMap, after: PendingMap) {
    forall k: nat :: k < |certs| && certs[k].name in before && certs[k].name in after ==>
      after[certs[k].name] == before[certs[k].name]
  }

  /** The entries acted on have left memory. */
  ghost predicate EntriesTaken(certs: seq<Certificate>, reports: seq<Report>, before: PendingMap, after: PendingMap)
    requires |reports| <= |certs|
  {
    forall k: nat :: ActedOn(reports, k) && certs[k].name in before ==> certs[k].name !in after
  }

  /** Report `l` is of a rotation that was started, which saves the map in memory. */
  predicate StartedAt(job: Job, reports: seq<Report>, before: PendingMap, l: nat)
    requires |reports| <= |job.Certs()|
  {
    && l < |reports| && reports[l].Processed?
    && Started(reports[l].decision, job.Certs()[l], before, job.dryRun, reports[l].result)
  }

  ghost predicate StartedAfter(job: Job, reports: seq<Report>, before: PendingMap, k: nat)
    requires |reports| <= |job.Certs()|
  {
    exists l: nat :: k < l && StartedAt(job, reports, before, l)
  }

  /** On a reliable network the saved map has lost exactly the entries acted on before a rotation
      was started. */
  ghost predicate LostSoFar(job: Job, reports: seq<Report>, before: PendingMap, stateFile: PendingMap)
    requires |reports| <= |job.Certs()|
  {
    forall k: nat :: k < |reports| && job.Certs()[k].name in before ==>
      (job.Certs()[k].name !in stateFile <==> ActedOn(reports, k) && StartedAfter(job, reports, before, k))
  }

  /** The names of the certificates acted on. */
  function ActedNames(certs: seq<Certificate>, reports: seq<Report>): set<string>
    requires |reports| <= |certs|
  {
    if reports == [] then {}
    else
      var n := |reports| - 1;
      ActedNames(certs, reports[..n]) + if ActedOn(reports, n) then {certs[n].name} else {}
  }

  predicate RestAgrees(certs: seq<Certificate>, n: nat, a: PendingMap, b: PendingMap) {
    forall k :: n <= k < |certs| ==> Agree(certs[k].name, a, b)
  }

  /** Every processed certificate had an entry to begin with, and none was renewed. */
  predicate OnlyFailedCompletions(certs: seq<Certificate>, reports: seq<Report>, before: PendingMap)
    requires |reports| <= |certs|
  {
    forall k :: 0 <= k < |reports| && reports[k].Processed? ==> certs[k].name in before && !Renewed(reports[k])
  }

  /** The entries name the files the program itself writes. */
  predicate PathsAsWritten(pending: PendingMap) {
    forall n :: n in pending ==> pending[n].keyPath == PendingPath(n)
  }

  ghost predicate Entries(job: Job, reports: seq<Report>, s: Snapshot, t: Snapshot)
    requires |reports| <= |job.Certs()|
  {
    var certs := job.Certs();
    && RestAgrees(certs, |reports|, s.pending, t.pending)
    && EntriesKept(certs, reports, s.pending, t.pending) && EntriesTaken(certs, reports, s.pending, t.pending)
    && EntriesKept(certs, reports, s.pending, t.disk.stateFile)
    && EntriesUnchanged(certs, s.pending, t.pending) && EntriesUnchanged(certs, s.pending, t.disk.stateFile)
    && (job.reliable ==> LostSoFar(job, reports, s.pending, t.disk.stateFile))
    && (PathsAsWritten(s.pending) ==> PathsAsWritten(t.pending) && PathsAsWritten(t.disk.stateFile))
    && (OnlyFailedCompletions(certs, reports, s.pending) ==>
          t.disk.stateFile == s.disk.stateFile && t.disk.pendingKeys == s.disk.pendingKeys)
  }

  // ----- Rehearsals -----

  predicate Rehearsing(job: Job, reports: seq<Report>, s: Snapshot, t: Snapshot)
    requires |reports| <= |job.Certs()|
  {
    job.dryRun ==> SameFiles(s.disk, t.disk) && t.pending == s.pending - ActedNames(job.Certs(), reports)
  }

  // ----- Decisions: why a certificate was acted on -----

  predicate PathsApart(certs: seq<Certificate>) {
    forall i, k :: 0 <= i < k < |certs| ==> certs[i].certPath != certs[k].certPath
  }

  /** Every decision was right about the state the run began in. */
  predicate Decided(job: Job, reports: seq<Report>, d: Durable, pending: PendingMap)
    requires |reports| <= |job.Certs()|
  {
    forall k: nat :: k < |reports| && reports[k].Processed? ==>
      && Justified(reports[k].decision, pending, d.certs, job.Certs()[k], job.force)
      && (job.reliable ==> Informed(reports[k].decision, pending, d.certs, job.Certs()[k], job.force))
  }

  predicate Deciding(job: Job, reports: seq<Report>, s: Snapshot, t: Snapshot)
    requires |reports| <= |job.Certs()|
  {
    job.dryRun || PathsApart(job.Certs()) ==>
      && Decided(job, reports, s.disk, s.pending)
      && forall k :: |reports| <= k < |job.Certs()| ==> Agree(job.Certs()[k].certPath, s.disk.certs, t.disk.certs)
  }

  /** On a reliable network a certificate acted on is renewed exactly when it is renewable. */
  ghost predicate RenewedRightly(job: Job, reports: seq<Report>, d: Durable, pending: PendingMap)
    requires |reports| <= |job.Certs()|
  {
    forall k: nat :: ActedOn(reports, k) ==>
      (Renewed(reports[k]) <==> Renewable(job.Certs()[k], pending, d.pendingKeys))
  }

  ghost predicate Renewing(job: Job, reports: seq<Report>, s: Snapshot, t: Snapshot)
    requires |reports| <= |job.Certs()|
  {
    job.reliable && (job.dryRun || PathsAsWritten(s.pending)) ==>
      && RenewedRightly(job, reports, s.disk, s.pending)
      && forall k :: |reports| <= k < |job.Certs()| ==>
           Agree(PendingPath(job.Certs()[k].name), s.disk.pendingKeys, t.disk.pendingKeys)
  }

  // ----- Certificate and key files -----

  /** Every certificate has its own certificate file and its own private key file. */
  predicate OwnFiles(certs: seq<Certificate>) {
    && PathsApart(certs)
    && forall i, k :: 0 <= i < k < |certs| && KeyLocation(certs[i]).Some? ==>
         KeyLocation(certs[i]) != KeyLocation(certs[k])
  }

  predicate SameFilesOf(cert: Certificate, d: Durable, e: Durable) {
    && Agree(cert.certPath, d.certs, e.certs)
    && (KeyLocation(cert).Some? ==> Agree(KeyLocation(cert).value, d.keys, e.keys))
  }

  /** A certificate not acted on keeps both files; one that was renewed has a certificate and a key
      that belong together. */
  predicate FilesMatch(job: Job, reports: seq<Report>, d: Durable, e: Durable)
    requires |reports| <= |job.Certs()|
  {
    OwnFiles(job.Certs()) ==>
      && (forall k: nat :: k < |job.Certs()| && !ActedOn(reports, k) ==> SameFilesOf(job.Certs()[k], d, e))
      && (forall k: nat :: k < |reports| && Renewed(reports[k]) && !job.dryRun ==>
            Agrees(job.Certs()[k], e.certs, e.keys))
  }

  // ----- Which key a certificate is for -----

  /** The certificate installed is for the key in the file of the entry that was saved. */
  predicate ForPendingKey(cert: Certificate, d: Durable, pending: PendingMap, e: Durable) {
    && cert.name in pending && pending[cert.name].keyPath in d.pendingKeys && cert.certPath in e.certs
    && e.certs[cert.certPath].spki == d.pendingKeys[pending[cert.name].keyPath].spki
  }

  /** Whatever fails, forced or not: a certificate with an entry keeps its key file, and keeps its
      certificate or has one for the key in that file, for sure if it is renewed; one that needs an
      entry and has none keeps its certificate, as does one that is not acted on. On a reliable
      network one that is acted on with a stored key has a certificate for that key. */
  predicate KeyFollowed(job: Job, reports: seq<Report>, k: nat, d: Durable, pending: PendingMap, e: Durable)
    requires |reports| <= |job.Certs()| && k < |job.Certs()|
  {
    var cert := job.Certs()[k];
    var same := Agree(cert.certPath, d.certs, e.certs);
    && (cert.name in pending && PathsAsWritten(pending) ==>
          && Agree(PendingPath(cert.name), d.pendingKeys, e.pendingKeys)
          && (same || ForPendingKey(cert, d, pending, e))
          && (k < |reports| && Renewed(reports[k]) && !job.dryRun ==> ForPendingKey(cert, d, pending, e)))
    && (cert.name !in pending && cert.NeedsPrePublish() ==> same)
    && (!ActedOn(reports, k) ==> same)
    && (&& ActedOn(reports, k) && job.reliable && !job.dryRun && OwnFiles(job.Certs())
        && cert.name !in pending && StoredKey(cert, d.keys).Some? ==>
          cert.certPath in e.certs && e.certs[cert.certPath].spki == StoredKey(cert, d.keys).value.spki)
  }

  predicate KeysFollowed(job: Job, reports: seq<Report>, d: Durable, pending: PendingMap, e: Durable)
    requires |reports| <= |job.Certs()|
  {
    PathsApart(job.Certs()) ==>
      forall k: nat :: k < |job.Certs()| ==> KeyFollowed(job, reports, k, d, pending, e)
  }

  // ----- One more certificate -----

  lemma ActedOnExtends(reports: seq<Report>, r: Report)
    ensures forall k: nat :: k < |reports| ==> (ActedOn(reports + [r], k) <==> ActedOn(reports, k))
    ensures ActedOn(reports + [r], |reports|) <==> r.Processed? && r.decision.act
  {
  }

  /** Two certificates of a validated configuration have two names. */
  lemma NamesDiffer(certs: seq<Certificate>, i: nat, k: nat)
    requires Validation.DistinctNames(Validation.CertificateNames(certs)) && i < |certs| && k < |certs| && i != k
    ensures certs[i].name != certs[k].name
  {
    var names := Validation.CertificateNames(certs);
    assert names[i] == certs[i].name && names[k] == certs[k].name;
  }

  predicate NamesApart(job: Job) {
    Validation.DistinctNames(Validation.CertificateNames(job.Certs()))
  }

  lemma StartedExtends(job: Job, reports: seq<Report>, r: Report, before: PendingMap, k: nat)
    requires |reports| < |job.Certs()| && k < |reports|
    ensures StartedAfter(job, reports + [r], before, k)
            <==> StartedAfter(job, reports, before, k) || StartedAt(job, reports + [r], before, |reports|)
  {
    if StartedAfter(job, reports, before, k) {
      var l: nat :| k < l && StartedAt(job, reports, before, l);
      assert StartedAt(job, reports + [r], before, l);
    }
    if StartedAfter(job, reports + [r], before, k) {
      var l: nat :| k < l && StartedAt(job, reports + [r], before, l);
      assert l < |reports| ==> StartedAt(job, reports, before, l);
    }
  }

  lemma LossStep(job: Job, reports: seq<Report>, r: Report, s: Snapshot, m: Snapshot, t: Snapshot)
    requires NamesApart(job) && |reports| < |job.Certs()| && Entries(job, reports, s, m) && job.reliable
    requires Looked(job, job.Certs()[|reports|], r, m, t)
    requires EntriesTaken(job.Certs(), reports + [r], s.pending, t.pending)
    requires EntriesKept(job.Certs(), reports + [r], s.pending, t.pending)
    ensures LostSoFar(job, reports + [r], s.pending, t.disk.stateFile)
  {
    var certs, all, n := job.Certs(), reports + [r], |reports|;
    ActedOnExtends(reports, r);
    assert Agree(certs[n].name, s.pending, m.pending);
    var started := StartedAt(job, all, s.pending, n);
    forall k: nat | k < |all| && certs[k].name in s.pending
      ensures certs[k].name !in t.disk.stateFile <==> ActedOn(all, k) && StartedAfter(job, all, s.pending, k)
    {
      if k < n {
        StartedExtends(job, reports, r, s.pending, k);
        if !started {
          assert t.disk.stateFile == m.disk.stateFile;
        }
      } else {
        assert !StartedAfter(job, all, s.pending, k);
      }
    }
  }

  lemma EntriesKeptStep(job: Job, reports: seq<Report>, r: Report, s: Snapshot, m: Snapshot, t: Snapshot)
    requires NamesApart(job) && |reports| < |job.Certs()| && Entries(job, reports, s, m)
    requires Looked(job, job.Certs()[|reports|], r, m, t)
    ensures RestAgrees(job.Certs(), |reports| + 1, s.pending, t.pending)
    ensures EntriesKept(job.Certs(), reports + [r], s.pending, t.pending)
    ensures EntriesKept(job.Certs(), reports + [r], s.pending, t.disk.stateFile)
    ensures EntriesTaken(job.Certs(), reports + [r], s.pending, t.pending)
    ensures EntriesUnchanged(job.Certs(), s.pending, t.pending)
    ensures EntriesUnchanged(job.Certs(), s.pending, t.disk.stateFile)
  {
    var certs, all, n := job.Certs(), reports + [r], |reports|;
    ActedOnExtends(reports, r);
    assert Agree(certs[n].name, s.pending, m.pending);
    forall k: nat | k < |certs| && k != n
      ensures Agree(certs[k].name, m.pending, t.pending)
      ensures Agree(certs[k].name, m.disk.stateFile, t.disk.stateFile) || t.disk.stateFile == t.pending
    {
      NamesDiffer(certs, k, n);
    }
    if certs[n].name in s.pending {
      assert t.disk.stateFile == m.disk.stateFile;
    }
  }

  lemma EntriesStep(job: Job, reports: seq<Report>, r: Report, s: Snapshot, m: Snapshot, t: Snapshot)
    requires NamesApart(job) && |reports| < |job.Certs()| && Entries(job, reports, s, m)
    requires Looked(job, job.Certs()[|reports|], r, m, t)
    ensures Entries(job, reports + [r], s, t)
  {
    EntriesKeptStep(job, reports, r, s, m, t);
    if job.reliable {
      LossStep(job, reports, r, s, m, t);
    }
    var certs, all, n := job.Certs(), reports + [r], |reports|;
    if OnlyFailedCompletions(certs, all, s.pending) {
      assert all[n] == r;
      assert forall k :: 0 <= k < n ==> all[k] == reports[k];
      assert Agree(certs[n].name, s.pending, m.pending);
    }
  }

  lemma OfActedOnExtends(certs: seq<Certificate>, reports: seq<Report>, r: Report, p: Place)
    requires |reports| < |certs|
    ensures OfActedOn(certs, reports + [r], p) <==>
              OfActedOn(certs, reports, p) || (r.Processed? && r.decision.act && BelongsTo(certs[|reports|], p))
  {
    hide BelongsTo;
    var all := reports + [r];
    ActedOnExtends(reports, r);
    if OfActedOn(certs, reports, p) {
      var k: nat :| ActedOn(reports, k) && k < |certs| && BelongsTo(certs[k], p);
      assert ActedOn(all, k);
    }
    if r.Processed? && r.decision.act && BelongsTo(certs[|reports|], p) {
      assert ActedOn(all, |reports|);
    }
    if OfActedOn(certs, all, p) {
      var k: nat :| ActedOn(all, k) && k < |certs| && BelongsTo(certs[k], p);
      assert k < |reports| ==> ActedOn(reports, k);
    }
  }

  /** Looking at a certificate changes no place but its own, and none if it does not act; and what it
      saves is the map in memory. */
  lemma PlaceKept(job: Job, r: Report, m: Snapshot, t: Snapshot, n: nat, p: Place)
    requires n < |job.Certs()| && Looked(job, job.Certs()[n], r, m, t)
    requires r.Processed? && r.decision.act ==> !BelongsTo(job.Certs()[n], p)
    ensures SameAt(p, m.disk, m.pending, t.disk, t.pending)
            || (p.Entry? && Agree(p.name, m.pending, t.pending) && t.disk.stateFile in {m.disk.stateFile, t.pending})
  {
  }

  lemma FrameStep(job: Job, reports: seq<Report>, r: Report, s: Snapshot, m: Snapshot, t: Snapshot)
    requires |reports| < |job.Certs()| && Looked(job, job.Certs()[|reports|], r, m, t)
    requires Frame(job.Certs(), reports, s.disk, s.pending, m.disk, m.pending)
    ensures Frame(job.Certs(), reports + [r], s.disk, s.pending, t.disk, t.pending)
  {
    hide OfActedOn, BelongsTo, Looked;
    forall p | !OfActedOn(job.Certs(), reports + [r], p) ensures SameAt(p, s.disk, s.pending, t.disk, t.pending) {
      OfActedOnExtends(job.Certs(), reports, r, p);
      assert SameAt(p, s.disk, s.pending, m.disk, m.pending);
      PlaceKept(job, r, m, t, |reports|, p);
    }
  }

  lemma RehearsingStep(job: Job, reports: seq<Report>, r: Report, s: Snapshot, m: Snapshot, t: Snapshot)
    requires |reports| < |job.Certs()| && Rehearsing(job, reports, s, m) && Looked(job, job.Certs()[|reports|], r, m, t)
    ensures Rehearsing(job, reports + [r], s, t)
  {
    assert (reports + [r])[..|reports|] == reports;
    ActedOnExtends(reports, r);
  }

  lemma DecidingStep(job: Job, reports: seq<Report>, r: Report, s: Snapshot, m: Snapshot, t: Snapshot)
    requires |reports| < |job.Certs()| && Entries(job, reports, s, m) && Rehearsing(job, reports, s, m)
    requires Deciding(job, reports, s, m) && Looked(job, job.Certs()[|reports|], r, m, t)
    ensures Deciding(job, reports + [r], s, t)
  {
    var certs, n := job.Certs(), |reports|;
    assert Agree(certs[n].name, s.pending, m.pending);
    assert forall k :: 0 <= k < n ==> (reports + [r])[k] == reports[k];
  }

  lemma RenewingStep(job: Job, reports: seq<Report>, r: Report, s: Snapshot, m: Snapshot, t: Snapshot)
    requires NamesApart(job) && |reports| < |job.Certs()| && Entries(job, reports, s, m)
    requires Rehearsing(job, reports, s, m)
    requires Renewing(job, reports, s, m) && Looked(job, job.Certs()[|reports|], r, m, t)
    ensures Renewing(job, reports + [r], s, t)
  {
    var certs, n := job.Certs(), |reports|;
    assert Agree(certs[n].name, s.pending, m.pending);
    ActedOnExtends(reports, r);
    forall k: nat | k < |certs| && k != n ensures PendingPath(certs[k].name) != PendingPath(certs[n].name) {
      NamesDiffer(certs, k, n);
      Safety.PathsDiffer(certs[k].name, certs[n].name);
    }
  }

  lemma FilesStep(job: Job, reports: seq<Report>, r: Report, d: Durable, s: Snapshot, t: Snapshot)
    requires |reports| < |job.Certs()| && FilesMatch(job, reports, d, s.disk)
    requires Looked(job, job.Certs()[|reports|], r, s, t)
    ensures FilesMatch(job, reports + [r], d, t.disk)
  {
    var certs, n := job.Certs(), |reports|;
    ActedOnExtends(reports, r);
    if OwnFiles(certs) {
      forall k: nat | k < |certs| && k != n ensures SameFilesOf(certs[k], s.disk, t.disk) {
      }
      if !ActedOn(reports + [r], n) {
        assert SameFilesOf(certs[n], s.disk, t.disk);
      }
    }
  }

  lemma KeyFollowedOther(job: Job, reports: seq<Report>, r: Report, k: nat, d: Durable, pending: PendingMap,
                         m: Durable, t: Durable)
    requires |reports| < |job.Certs()| && k < |job.Certs()| && k != |reports|
    requires KeyFollowed(job, reports, k, d, pending, m)
    requires Agree(job.Certs()[k].certPath, m.certs, t.certs)
    requires Agree(PendingPath(job.Certs()[k].name), m.pendingKeys, t.pendingKeys)
    ensures KeyFollowed(job, reports + [r], k, d, pending, t)
  {
    ActedOnExtends(reports, r);
  }

  /** The certificate just looked at: so far its files and entry were as in the beginning. */
  lemma KeyFollowedNow(job: Job, reports: seq<Report>, r: Report, s: Snapshot, m: Snapshot, t: Snapshot)
    requires |reports| < |job.Certs()| && KeyFollowed(job, reports, |reports|, s.disk, s.pending, m.disk)
    requires FilesMatch(job, reports, s.disk, m.disk)
    requires Agree(job.Certs()[|reports|].name, s.pending, m.pending)
    requires Looked(job, job.Certs()[|reports|], r, m, t)
    ensures KeyFollowed(job, reports + [r], |reports|, s.disk, s.pending, t.disk)
  {
    var cert, n := job.Certs()[|reports|], |reports|;
    ActedOnExtends(reports, r);
    assert !ActedOn(reports, n) && (reports + [r])[n] == r;
    if OwnFiles(job.Certs()) {
      assert SameFilesOf(cert, s.disk, m.disk);
    }
  }

  lemma KeysFollowedStep(job: Job, reports: seq<Report>, r: Report, s: Snapshot, m: Snapshot, t: Snapshot)
    requires NamesApart(job) && |reports| < |job.Certs()| && Entries(job, reports, s, m)
    requires FilesMatch(job, reports, s.disk, m.disk) && KeysFollowed(job, reports, s.disk, s.pending, m.disk)
    requires Looked(job, job.Certs()[|reports|], r, m, t)
    ensures KeysFollowed(job, reports + [r], s.disk, s.pending, t.disk)
  {
    var certs, n := job.Certs(), |reports|;
    if PathsApart(certs) {
      assert Agree(certs[n].name, s.pending, m.pending);
      KeyFollowedNow(job, reports, r, s, m, t);
      forall k: nat | k < |certs| && k != n ensures KeyFollowed(job, reports + [r], k, s.disk, s.pending, t.disk) {
        NamesDiffer(certs, k, n);
        Safety.PathsDiffer(certs[k].name, certs[n].name);
        assert certs[k].certPath != certs[n].certPath;
        KeyFollowedOther(job, reports, r, k, s.disk, s.pending, m.disk, t.disk);
      }
    }
  }

  /** All of it. */
  ghost predicate Loop(job: Job, reports: seq<Report>, s: Snapshot, t: Snapshot) {
    && s.disk.now <= t.disk.now && InOrder(job, reports) && Clocked(reports, s.disk.now, t.disk.now)
    && Entries(job, reports, s, t) && Rehearsing(job, reports, s, t) && Deciding(job, reports, s, t)
    && Renewing(job, reports, s, t) && FilesMatch(job, reports, s.disk, t.disk)
    && KeysFollowed(job, reports, s.disk, s.pending, t.disk)
    && Frame(job.Certs(), reports, s.disk, s.pending, t.disk, t.pending)
  }

  lemma LoopStep(job: Job, reports: seq<Report>, r: Report, s: Snapshot, m: Snapshot, t: Snapshot)
    requires NamesApart(job) && |reports| < |job.Certs()| && Loop(job, reports, s, m)
    requires Looked(job, job.Certs()[|reports|], r, m, t)
    ensures Loop(job, reports + [r], s, t)
  {
    EntriesStep(job, reports, r, s, m, t);
    RehearsingStep(job, reports, r, s, m, t);
    DecidingStep(job, reports, r, s, m, t);
    RenewingStep(job, reports, r, s, m, t);
    FilesStep(job, reports, r, s.disk, m, t);
    KeysFollowedStep(job, reports, r, s, m, t);
    FrameStep(job, reports, r, s, m, t);
    hide Frame, Entries, Rehearsing, Deciding, Renewing, FilesMatch, KeysFollowed, OthersUntouched;
    assert forall k :: 0 <= k < |reports| ==> (reports + [r])[k] == reports[k];
  }

  // ----- The whole run -----

  /** What a run leaves behind, whatever failed in it: `d` before, `e` after. */
  ghost predicate RunKeeps(job: Job, reports: seq<Report>, d: Durable, e: Durable) {
    && d.now <= e.now && InOrder(job, reports) && Clocked(reports, d.now, e.now)
    && EntriesKept(job.Certs(), reports, d.stateFile, e.stateFile)
    && EntriesUnchanged(job.Certs(), d.stateFile, e.stateFile)
    && (job.dryRun ==>
          && e == d.(now := e.now, stateFile := e.stateFile)
          && (e.stateFile == d.stateFile
              || (AnyRenewed(reports) && e.stateFile == d.stateFile - ActedNames(job.Certs(), reports))))
    && (OnlyFailedCompletions(job.Certs(), reports, d.stateFile) ==>
          e.stateFile == d.stateFile && e.pendingKeys == d.pendingKeys)
    && (PathsAsWritten(d.stateFile) ==> PathsAsWritten(e.stateFile))
    && (job.dryRun || PathsApart(job.Certs()) ==> Decided(job, reports, d, d.stateFile))
    && FilesMatch(job, reports, d, e) && KeysFollowed(job, reports, d, d.stateFile, e)
    && Frame(job.Certs(), reports, d, d.stateFile, e, e.stateFile)
  }

  /** What a run on a reliable network does to the saved entries, exactly. */
  ghost predicate RunLoses(job: Job, reports: seq<Report>, d: Durable, e: Durable)
    requires |reports| <= |job.Certs()|
  {
    && (job.dryRun || PathsAsWritten(d.stateFile) ==> RenewedRightly(job, reports, d, d.stateFile))
    && (job.dryRun ==>
          e.stateFile == if AnyRenewed(reports) then d.stateFile - ActedNames(job.Certs(), reports) else d.stateFile)
    && forall k: nat :: k < |reports| && job.Certs()[k].name in d.stateFile ==>
         (job.Certs()[k].name !in e.stateFile
          <==> ActedOn(reports, k) && (AnyRenewed(reports) || StartedAfter(job, reports, d.stateFile, k)))
  }

  /** From the end of the loop to the end of the run: the map in memory is saved if something was
      renewed, for sure on a reliable network. */
  ghost predicate Concluded(job: Job, dirty: bool, t: Snapshot, e: Durable) {
    && t.disk.now <= e.now && e == t.disk.(now := e.now, stateFile := e.stateFile)
    && (e.stateFile == t.disk.stateFile || (dirty && e.stateFile == t.pending))
    && (job.reliable && dirty ==> e.stateFile == t.pending)
  }

  lemma ConcludeKeeps(job: Job, reports: seq<Report>, s: Snapshot, t: Snapshot, e: Durable)
    requires Loop(job, reports, s, t) && s.pending == s.disk.stateFile && Concluded(job, AnyRenewed(reports), t, e)
    ensures RunKeeps(job, reports, s.disk, e)
  {
    if PathsApart(job.Certs()) {
      forall k: nat | k < |job.Certs()| ensures KeyFollowed(job, reports, k, s.disk, s.pending, e) {
        assert KeyFollowed(job, reports, k, s.disk, s.pending, t.disk);
      }
    }
    forall p | !OfActedOn(job.Certs(), reports, p) ensures SameAt(p, s.disk, s.pending, e, e.stateFile) {
      assert SameAt(p, s.disk, s.pending, t.disk, t.pending);
    }
  }

  lemma ConcludeLoses(job: Job, reports: seq<Report>, s: Snapshot, t: Snapshot, e: Durable)
    requires Loop(job, reports, s, t) && s.pending == s.disk.stateFile && Concluded(job, AnyRenewed(reports), t, e)
    requires job.reliable
    ensures RunLoses(job, reports, s.disk, e)
  {
  }

  /** When a completion that failed beside other certificates is lost for the next run: exactly
      when something else makes the run save, a renewed certificate or a rotation started later. */
  lemma FailedCompletionLostExactly(job: Job, reports: seq<Report>, d: Durable, e: Durable, k: nat)
    requires job.reliable && RunKeeps(job, reports, d, e) && RunLoses(job, reports, d, e)
    requires ActedOn(reports, k) && !Renewed(reports[k]) && job.Certs()[k].name in d.stateFile
    ensures job.Certs()[k].name in e.stateFile <==> !AnyRenewed(reports) && !StartedAfter(job, reports, d.stateFile, k)
  {
  }

  /** When a dry run on a reliable network leaves the state file alone: exactly when no
      certificate would be renewed, or no certificate acted on has an entry. */
  lemma DryRunKeepsStateExactly(job: Job, reports: seq<Report>, d: Durable, e: Durable)
    requires job.dryRun && job.reliable && RunKeeps(job, reports, d, e) && RunLoses(job, reports, d, e)
    ensures e.stateFile == d.stateFile
            <==> !AnyRenewed(reports) || forall k: nat :: ActedOn(reports, k) ==> job.Certs()[k].name !in d.stateFile
  {
    ActedNamesMembers(job.Certs(), reports);
    var names := ActedNames(job.Certs(), reports);
    if AnyRenewed(reports) {
      if e.stateFile == d.stateFile {
        forall k: nat | ActedOn(reports, k) ensures job.Certs()[k].name !in d.stateFile {
          assert job.Certs()[k].name in names;
        }
      }
      if forall k: nat :: ActedOn(reports, k) ==> job.Certs()[k].name !in d.stateFile {
        assert forall n :: n in names ==> n !in d.stateFile;
        assert d.stateFile - names == d.stateFile;
      }
    }
  }

  lemma {:induction false} ActedNamesMembers(certs: seq<Certificate>, reports: seq<Report>)
    requires |reports| <= |certs|
    ensures forall n :: n in ActedNames(certs, reports) <==> exists k: nat :: ActedOn(reports, k) && certs[k].name == n
  {
    if reports != [] {
      var init := reports[..|reports| - 1];
      ActedNamesMembers(certs, init);
      assert reports == init + [reports[|reports| - 1]];
      ActedOnExtends(init, reports[|reports| - 1]);
      forall n ensures n in ActedNames(certs, reports) <==> exists k: nat :: ActedOn(reports, k) && certs[k].name == n {
        if n in ActedNames(certs, init) {
          var k: nat :| ActedOn(init, k) && certs[k].name == n;
          assert ActedOn(reports, k);
        }
        if exists k: nat :: ActedOn(reports, k) && certs[k].name == n {
          var k: nat :| ActedOn(reports, k) && certs[k].name == n;
          assert k < |init| ==> ActedOn(init, k);
        }
      }
    }
  }

  /** Which certificates those are, before the run has to be asked: on a reliable network a
      certificate is acted on exactly when it is selected, does not wait for its TTL and is forced,
      due, or without a file; and it would be renewed exactly when it is moreover renewable. */
  lemma ActedOnExactly(job: Job, reports: seq<Report>, d: Durable, e: Durable, k: nat)
    requires job.reliable && job.dryRun && RunKeeps(job, reports, d, e) && RunLoses(job, reports, d, e) && k < |reports|
    ensures ActedOn(reports, k) ==> Selected(job.filter, job.Certs()[k])
    ensures reports[k].Processed? ==>
              var cert, at := job.Certs()[k], reports[k].decision;
              ActedOn(reports, k)
              <==> !Waiting(d.stateFile, cert.name, at.ttlAt) && !NotDue(d.certs, cert, job.force, at.dueAt)
    ensures Renewed(reports[k]) <==> ActedOn(reports, k) && Renewable(job.Certs()[k], d.stateFile, d.pendingKeys)
  {
  }
}
