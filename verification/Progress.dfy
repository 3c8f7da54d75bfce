/** What an undisturbed run moves forward: each rotating certificate by exactly one step, and what
    is saved about it is what was decided. */
module Progress {
  import opened Config
  import opened Protocol
  import opened Renew
  import opened RenewCertificate
  import opened Liveness
  import opened Reports
  import Safety

  /** The conditions under which progress is promised: every call succeeds, the server does not
      refuse adds to existing RRsets, and the run is neither forced nor a rehearsal. */
  ghost predicate Calm(job: Job) {
    job.reliable && !job.setup.exclusiveAdd && !job.force && !job.dryRun && Safety.Separate(job.setup)
  }

  predicate Rotates(cert: Certificate) {
    cert.NeedsPrePublish() && Supported(cert.keyType)
  }

  /** On the configuration: the key is rotated, is of a supported type, and some block is published
      early for it. */
  lemma RotatesExactly(cert: Certificate)
    ensures Rotates(cert) <==>
              && cert.rotateKey && (cert.keyType == EcdsaP256 || cert.keyType == EcdsaP384)
              && exists j :: 0 <= j < |cert.dane| && cert.dane[j].prePublish
                             && cert.dane[j].selector == DaneSelector.Spki
  {
  }

  /** An entry whose key file exists. */
  predicate Backed(v: View) {
    v.entry.Some? ==> v.keyFile.Some?
  }

  /** Certificate `i` leaves the view and the entry of every other certificate alone. */
  lemma OtherViewsKept(setup: Setup, i: nat, k: nat, d: Durable, pending: PendingMap, e: Durable, after: PendingMap)
    requires Safety.Separate(setup) && i < |setup.certificates| && k < |setup.certificates| && i != k
    requires OthersUntouched(setup.certificates[i], d, pending, e, after)
    ensures ViewOf(e, after, setup.certificates[k]) == ViewOf(d, pending, setup.certificates[k])
  {
    var ci, ck := setup.certificates[i], setup.certificates[k];
    assert ci.name != ck.name && ci.certPath != ck.certPath;
    Safety.PathsDiffer(ci.name, ck.name);
  }

  /** A processed certificate took its step, and unless it was renewed, what is saved about it
      is what is in memory, if it was before. */
  predicate Advanced(cert: Certificate, report: Report, s: Snapshot, t: Snapshot) {
    var v, u := ViewOf(s.disk, s.pending, cert), ViewOf(t.disk, t.pending, cert);
    && (report.Processed? ==> RunStep(cert, v, report.decision.ttlAt, report.decision.dueAt, u))
    && (report.Skipped? ==> t == s)
    && (!Renewed(report) && Backed(v) && Agree(cert.name, s.disk.stateFile, s.pending) ==>
          Agree(cert.name, t.disk.stateFile, t.pending))
  }

  lemma LookedAdvances(job: Job, cert: Certificate, report: Report, s: Snapshot, t: Snapshot)
    requires Calm(job) && Looked(job, cert, report, s, t) && PathsAsWritten(s.pending) && Rotates(cert)
    ensures Advanced(cert, report, s, t)
  {
    hide OnlyShownIfInstalled, Displayed;
  }

  /** The certificates already looked at took their steps. */
  predicate StepsTaken(certs: seq<Certificate>, reports: seq<Report>, s: Snapshot, t: Snapshot)
    requires |reports| <= |certs|
  {
    forall k :: 0 <= k < |reports| && reports[k].Processed? && Rotates(certs[k]) ==>
      RunStep(certs[k], ViewOf(s.disk, s.pending, certs[k]), reports[k].decision.ttlAt, reports[k].decision.dueAt,
              ViewOf(t.disk, t.pending, certs[k]))
  }

  /** The others are still as they were. */
  predicate RestUntouched(certs: seq<Certificate>, n: nat, s: Snapshot, t: Snapshot) {
    forall k :: n <= k < |certs| ==> ViewOf(t.disk, t.pending, certs[k]) == ViewOf(s.disk, s.pending, certs[k])
  }

  /** Unless a save is due anyway, memory and disk agree on every sound entry. */
  predicate Saved(certs: seq<Certificate>, n: nat, s: Snapshot, t: Snapshot) {
    forall k :: 0 <= k < |certs| && (k >= n || (Rotates(certs[k]) && Backed(ViewOf(s.disk, s.pending, certs[k])))) ==>
      Agree(certs[k].name, t.disk.stateFile, t.pending)
  }

  predicate LoopProgresses(certs: seq<Certificate>, reports: seq<Report>, s: Snapshot, t: Snapshot) {
    && |reports| <= |certs|
    && StepsTaken(certs, reports, s, t) && RestUntouched(certs, |reports|, s, t)
    && (!AnyRenewed(reports) ==> Saved(certs, |reports|, s, t))
  }

  lemma LoopAdvances(job: Job, reports: seq<Report>, r: Report, s: Snapshot, m: Snapshot, t: Snapshot)
    requires Calm(job) && |reports| < |job.Certs()| && LoopProgresses(job.Certs(), reports, s, m)
    requires Looked(job, job.Certs()[|reports|], r, m, t) && PathsAsWritten(m.pending)
    ensures LoopProgresses(job.Certs(), reports + [r], s, t)
  {
    var certs, n := job.Certs(), |reports|;
    if Rotates(certs[n]) {
      LookedAdvances(job, certs[n], r, m, t);
    }
    assert OthersUntouched(certs[n], m.disk, m.pending, t.disk, t.pending);
    hide Looked;
    forall k: nat | k < |certs| && k != n
      ensures ViewOf(t.disk, t.pending, certs[k]) == ViewOf(m.disk, m.pending, certs[k])
      ensures Agree(certs[k].name, m.disk.stateFile, m.pending) ==> Agree(certs[k].name, t.disk.stateFile, t.pending)
    {
      OtherViewsKept(job.setup, n, k, m.disk, m.pending, t.disk, t.pending);
      assert certs[k].name != certs[n].name;
    }
    assert forall k :: 0 <= k < n ==> (reports + [r])[k] == reports[k];
    assert (reports + [r])[n] == r;
    assert ViewOf(m.disk, m.pending, certs[n]) == ViewOf(s.disk, s.pending, certs[n]);
    if AnyRenewed(reports) {
      var k :| 0 <= k < n && Renewed(reports[k]);
      assert Renewed((reports + [r])[k]);
    }
  }

  /** Every processed certificate that rotates with pre-publication took one step of its
      schedule, as seen from the files before and after. */
  predicate RunProgresses(job: Job, reports: seq<Report>, d: Durable, e: Durable) {
    && |reports| == |job.Certs()|
    && forall k :: 0 <= k < |reports| && reports[k].Processed? && Rotates(job.Certs()[k])
                   && Backed(ViewOf(d, d.stateFile, job.Certs()[k])) ==>
         RunStep(job.Certs()[k], ViewOf(d, d.stateFile, job.Certs()[k]), reports[k].decision.ttlAt,
             reports[k].decision.dueAt,
                 ViewOf(e, e.stateFile, job.Certs()[k]))
  }

  lemma ConcludeProgresses(job: Job, reports: seq<Report>, s: Snapshot, t: Snapshot, e: Durable)
    requires |reports| == |job.Certs()| && LoopProgresses(job.Certs(), reports, s, t) && s.pending == s.disk.stateFile
    requires Concluded(job, AnyRenewed(reports), t, e) && job.reliable
    ensures RunProgresses(job, reports, s.disk, e)
  {
    forall k | 0 <= k < |reports| && reports[k].Processed? && Rotates(job.Certs()[k])
               && Backed(ViewOf(s.disk, s.pending, job.Certs()[k]))
      ensures ViewOf(e, e.stateFile, job.Certs()[k]) == ViewOf(t.disk, t.pending, job.Certs()[k])
    {
      if !AnyRenewed(reports) {
        assert Agree(job.Certs()[k].name, t.disk.stateFile, t.pending);
      }
    }
  }
}
