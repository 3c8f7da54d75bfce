/** What a run may touch, in the words of the configuration and of the command line alone. */
module PlainRun {
  import opened Prelude
  import opened Config
  import opened Protocol
  import opened Reports
  import Names

  /** With `--name`, exactly the certificates of another name are passed over; without it, none. */
  predicate LookedAt(certs: seq<Certificate>, filter: Option<string>, reports: seq<Report>) {
    && |reports| == |certs|
    && forall k :: 0 <= k < |certs| ==> (reports[k].Skipped? <==> filter.Some? && certs[k].name != filter.value)
  }

  /** The certificate has a TLSA name that is a spelling of `m`. */
  predicate HasName(cert: Certificate, m: string) {
    exists j, l :: 0 <= j < |cert.dane| && 0 <= l < |cert.dane[j].names|
                   && Names.Canonical(cert.dane[j].names[l]) == Names.Canonical(m)
  }

  /** Where the private key is kept: the credential if there is one, else the path. */
  function KeyPlace(cert: Certificate): Option<string> {
    if cert.keyCredential.Some? then cert.keyCredential else cert.keyPath
  }

  /** Whatever changed belongs to a certificate called `name`: its certificate file, its private key
      file, its pending key file, its saved entry, or an RRset at one of its TLSA names. If there is
      no such certificate, nothing changed but the time. */
  ghost predicate OnlyConcerns(certs: seq<Certificate>, name: string, d: Durable, e: Durable) {
    && (forall p :: (forall k :: 0 <= k < |certs| && certs[k].name == name ==> certs[k].certPath != p) ==>
          Agree(p, d.certs, e.certs))
    && (forall p :: (forall k :: 0 <= k < |certs| && certs[k].name == name ==> KeyPlace(certs[k]) != Some(p)) ==>
          Agree(p, d.keys, e.keys))
    && (forall p :: p != "pending/" + name + ".key" ==> Agree(p, d.pendingKeys, e.pendingKeys))
    && (forall n :: n != name ==> Agree(n, d.stateFile, e.stateFile))
    && forall m :: (forall k :: 0 <= k < |certs| && certs[k].name == name ==> !HasName(certs[k], m)) ==>
         LogOf(e.zone, m) == LogOf(d.zone, m)
  }

  /** A certificate that rotates its key and has a block published early for the public key is never
      issued before its rotation has been saved: without an entry it keeps its file. */
  ghost predicate AnnouncedFirst(certs: seq<Certificate>, d: Durable, e: Durable) {
    (forall i, k :: 0 <= i < k < |certs| ==> certs[i].certPath != certs[k].certPath) ==>
      forall k :: 0 <= k < |certs| && certs[k].name !in d.stateFile && certs[k].rotateKey
                  && (exists j :: 0 <= j < |certs[k].dane| && certs[k].dane[j].prePublish
                                  && certs[k].dane[j].selector == DaneSelector.Spki) ==>
        Agree(certs[k].certPath, d.certs, e.certs)
  }

  lemma RunAnnouncesFirst(job: Job, reports: seq<Report>, d: Durable, e: Durable)
    requires RunKeeps(job, reports, d, e)
    ensures AnnouncedFirst(job.Certs(), d, e)
  {
    var certs := job.Certs();
    if PathsApart(certs) {
      forall k: nat | k < |certs| && certs[k].name !in d.stateFile && certs[k].rotateKey
          && (exists j :: 0 <= j < |certs[k].dane| && certs[k].dane[j].prePublish
                          && certs[k].dane[j].selector == DaneSelector.Spki)
        ensures Agree(certs[k].certPath, d.certs, e.certs)
      {
        assert KeyFollowed(job, reports, k, d, d.stateFile, e);
      }
    }
  }

  lemma NamedRun(job: Job, reports: seq<Report>, d: Durable, e: Durable)
    requires RunKeeps(job, reports, d, e) && |reports| == |job.Certs()|
    ensures LookedAt(job.Certs(), job.filter, reports)
    ensures job.filter.Some? ==> OnlyConcerns(job.Certs(), job.filter.value, d, e)
  {
    var certs := job.Certs();
    assert Frame(certs, reports, d, d.stateFile, e, e.stateFile);
    if job.filter.Some? {
      var name := job.filter.value;
      forall k: nat | ActedOn(reports, k) && k < |certs| ensures certs[k].name == name {
      }
      hide RunKeeps, Selected;
      forall p | forall k :: 0 <= k < |certs| && certs[k].name == name ==> certs[k].certPath != p
        ensures Agree(p, d.certs, e.certs)
      {
        assert SameAt(CertFile(p), d, d.stateFile, e, e.stateFile);
      }
      forall p | forall k :: 0 <= k < |certs| && certs[k].name == name ==> KeyPlace(certs[k]) != Some(p)
        ensures Agree(p, d.keys, e.keys)
      {
        assert SameAt(KeyFile(p), d, d.stateFile, e, e.stateFile);
      }
      forall p | p != "pending/" + name + ".key" ensures Agree(p, d.pendingKeys, e.pendingKeys) {
        assert SameAt(PendingKeyFile(p), d, d.stateFile, e, e.stateFile);
      }
      forall n | n != name ensures Agree(n, d.stateFile, e.stateFile) {
        assert SameAt(Entry(n), d, d.stateFile, e, e.stateFile);
      }
      forall m | forall k :: 0 <= k < |certs| && certs[k].name == name ==> !HasName(certs[k], m)
        ensures LogOf(e.zone, m) == LogOf(d.zone, m)
      {
        assert SameAt(Rrset(m), d, d.stateFile, e, e.stateFile);
      }
    }
  }
}
