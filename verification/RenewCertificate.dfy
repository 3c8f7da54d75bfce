/** `renew_certificate` as a whole: what each outcome means for the files, the pending map,
    the name server and the hooks. */
module RenewCertificate {
  import opened Prelude
  import opened Config
  import opened Expiry
  import opened History
  import opened Tlsa
  import opened Protocol
  import opened World
  import opened Hooks
  import opened PrePublish
  import opened Renew
  import KeptKeys
  import Pipeline
  import Publish
  import Safety
  import Validation

  /** What the outcome of a renewal is measured on: the files and RRsets, the pending rotations in
      memory, and the hooks started. */
  datatype Snapshot = Snapshot(disk: Durable, pending: PendingMap, log: seq<HookRun>)

  function Now(w: World, state: State): Snapshot
    reads w, state
  {
    Snapshot(w.Disk(), state.pendingRotations, w.hookLog)
  }

  /** Nothing but the clock moved. */
  predicate Untouched(s: Snapshot, t: Snapshot) {
    SameFiles(s.disk, t.disk) && t.pending == s.pending && t.log == s.log
  }

  /** A rotation was started and saved. */
  predicate Started(d: Decision, cert: Certificate, pending: PendingMap, dryRun: bool, r: Result<bool, RenewError>) {
    !dryRun && d.act && cert.name !in pending && cert.NeedsPrePublish() && r == Ok(false)
  }

  /** Acting on the certificate renews it in this run, if nothing fails. */
  predicate Renewable(cert: Certificate, pending: PendingMap, files: map<string, Key>) {
    && Supported(cert.keyType)
    && if cert.name in pending then pending[cert.name].keyPath in files else !cert.NeedsPrePublish()
  }

  /** A dry run changes no file and no record and starts no hook; from memory it drops this
      certificate's entry exactly when it acts on it. */
  predicate Rehearsed(cert: Certificate, s: Snapshot, t: Snapshot, d: Decision) {
    && SameFiles(s.disk, t.disk) && t.log == s.log
    && t.pending == if d.act then s.pending - {cert.name} else s.pending
  }

  /** While an entry is pending, the saved map and every pending key file stay as they are, a
      certificate is only ever issued for the pending key, and the TLSA records change only to
      those of the certificate so installed. The entry leaves memory when it is acted on. */
  ghost predicate Preserved(hash: Hasher, cert: Certificate, s: Snapshot, t: Snapshot, d: Decision) {
    && t.disk.stateFile == s.disk.stateFile && t.disk.pendingKeys == s.disk.pendingKeys
    && (t.disk.certs == s.disk.certs
        || InstallsPending(cert, s.pending, t.disk.pendingKeys, s.disk.certs, t.disk.certs))
    && OnlyShownIfInstalled(hash, cert, s.disk.certs, t.disk.certs, s.disk.zone, t.disk.zone)
    && (d.act ==> t.pending == s.pending - {cert.name})
  }

  /** A certificate without an entry that needs one is not issued, and no record is withdrawn. */
  ghost predicate Deferred(cert: Certificate, s: Snapshot, t: Snapshot, r: Result<bool, RenewError>) {
    && t.disk.certs == s.disk.certs && t.disk.keys == s.disk.keys
    && OnlyExtended(cert, s.disk.zone, t.disk.zone) && r != Ok(true)
  }

  /** The rotation that was started is saved: the key file and the entry are where the next run looks
      for them, with the longest TTL to wait for. */
  ghost predicate EntrySaved(cert: Certificate, t: Snapshot) {
    && cert.name in t.disk.stateFile
    && t.disk.stateFile[cert.name].keyPath == "pending/" + cert.name + ".key"
    && t.disk.stateFile[cert.name].keyPath in t.disk.pendingKeys
    && Safety.LongestWait(cert.dane, t.disk.stateFile[cert.name].oldTtl)
  }

  /** What a run may do to one certificate. */
  ghost predicate Outcome(hash: Hasher, cert: Certificate, dryRun: bool, s: Snapshot, t: Snapshot,
                          r: Result<bool, RenewError>, d: Decision)
  {
    && (!d.act ==> r == Ok(false) && Untouched(s, t))
    && (dryRun ==> Rehearsed(cert, s, t, d))
    && (cert.name in s.pending ==> Preserved(hash, cert, s, t, d))
    && (cert.name !in s.pending && cert.NeedsPrePublish() ==> Deferred(cert, s, t, r))
    && (r == Ok(true) && !dryRun ==> Agrees(cert, t.disk.certs, t.disk.keys))
    && (r == Ok(true) && !dryRun && cert.name in s.pending ==>
          InstallsPending(cert, s.pending, t.disk.pendingKeys, s.disk.certs, t.disk.certs))
    && (Started(d, cert, s.pending, dryRun, r) ==> t.disk.stateFile == t.pending && EntrySaved(cert, t))
    && (d.act && r.Ok? ==> Supported(cert.keyType))
    && t.log == s.log + if r == Ok(true) && !dryRun then InlineRuns(cert) else []
  }

  /** The same in the words of the configuration. A certificate that rotates its key, has a block
      published early for the public key, and has no entry, is not issued: if it is acted on with
      success, an entry is saved. What is renewed has a key of a supported type in the place that
      the configuration names, and its hooks are started, all of them in order. */
  ghost predicate PlainOutcome(cert: Certificate, dryRun: bool, s: Snapshot, t: Snapshot, r: Result<bool, RenewError>,
                               d: Decision)
  {
    var announced := cert.rotateKey
      && exists j :: 0 <= j < |cert.dane| && cert.dane[j].prePublish && cert.dane[j].selector == DaneSelector.Spki;
    && (announced && cert.name !in s.pending ==>
          && t.disk.certs == s.disk.certs && t.disk.keys == s.disk.keys
          && (d.act && !dryRun && r == Ok(false) ==> EntrySaved(cert, t)) && r != Ok(true))
    && (d.act && r.Ok? ==> cert.keyType == EcdsaP256 || cert.keyType == EcdsaP384)
    && (!d.act ==> r == Ok(false))
    && (r == Ok(true) && !dryRun ==>
          var place := if cert.keyCredential.Some? then cert.keyCredential else cert.keyPath;
          && cert.certPath in t.disk.certs
          && (place.Some? ==>
                place.value in t.disk.keys && t.disk.certs[cert.certPath].spki == t.disk.keys[place.value].spki))
    && (if r == Ok(true) && !dryRun
        then && |t.log| == |s.log| + |cert.inlineHooks| && t.log[..|s.log|] == s.log
             && forall k :: 0 <= k < |cert.inlineHooks| ==> t.log[|s.log| + k] == Inline(cert.name, k)
        else t.log == s.log)
  }

  /** When every call succeeds, a certificate that is acted on is renewed exactly if its key type is
      supported and either its entry's key file is there, or it has no entry and needs none; and a
      rehearsal of a rotation goes well exactly if its key type is supported. */
  predicate PlainlyRenewed(cert: Certificate, dryRun: bool, s: Snapshot, r: Result<bool, RenewError>, d: Decision) {
    var announced := cert.rotateKey
      && exists j :: 0 <= j < |cert.dane| && cert.dane[j].prePublish && cert.dane[j].selector == DaneSelector.Spki;
    d.act ==>
      (r == Ok(true) <==>
         && (cert.keyType == EcdsaP256 || cert.keyType == EcdsaP384)
         && if cert.name in s.pending then s.pending[cert.name].keyPath in s.disk.pendingKeys else !announced)
      && (dryRun && cert.name !in s.pending && announced ==>
            (r.Ok? <==> cert.keyType == EcdsaP256 || cert.keyType == EcdsaP384))
  }

  lemma OutcomeIsPlain(hash: Hasher, cert: Certificate, dryRun: bool, s: Snapshot, t: Snapshot,
                       r: Result<bool, RenewError>, d: Decision)
    requires Outcome(hash, cert, dryRun, s, t, r, d)
    ensures PlainOutcome(cert, dryRun, s, t, r, d)
  {
    hide Preserved, OnlyExtended, EntrySaved;
    if r == Ok(true) && !dryRun {
      assert t.log == s.log + InlineRuns(cert);
      assert t.log[..|s.log|] == s.log;
    } else {
      assert t.log == s.log + [];
    }
  }

  lemma RenewalIsPlain(setup: Setup, cert: Certificate, dryRun: bool, s: Snapshot, t: Snapshot,
                       r: Result<bool, RenewError>, d: Decision)
    requires Dependable(setup, cert, dryRun, s, t, r, d)
    ensures PlainlyRenewed(cert, dryRun, s, r, d)
  {
  }

  /** What a run must do when every call succeeds: acting renews the certificate exactly when it is
      renewable; and nothing is saved but by starting a rotation. */
  ghost predicate Dependable(setup: Setup, cert: Certificate, dryRun: bool, s: Snapshot, t: Snapshot,
                             r: Result<bool, RenewError>, d: Decision)
  {
    && (d.act ==> (r == Ok(true) <==> Renewable(cert, s.pending, s.disk.pendingKeys)))
    && (d.act && dryRun && cert.name !in s.pending && cert.NeedsPrePublish() ==> (r.Ok? <==> Supported(cert.keyType)))
    && (!Started(d, cert, s.pending, dryRun, r) ==> t.disk.stateFile == s.disk.stateFile)
    && (d.act && !dryRun ==> Progress(setup, cert, s, t, r, d))
  }

  /** Acting finishes a rotation that has waited, starts one if the server takes the adds, or
      renews a certificate without pre-publication, for its stored key if it has one. */
  ghost predicate Progress(setup: Setup, cert: Certificate, s: Snapshot, t: Snapshot, r: Result<bool, RenewError>,
                           d: Decision) {
    && (r == Ok(true) ==> Displayed(setup.hash, cert, t.disk.certs, t.disk.zone))
    && (r == Ok(true) && cert.name !in s.pending && StoredKey(cert, s.disk.keys).Some? ==>
          && t.disk.keys == s.disk.keys && cert.certPath in t.disk.certs
          && t.disk.certs[cert.certPath].spki == StoredKey(cert, s.disk.keys).value.spki)
    && (cert.name !in s.pending && cert.NeedsPrePublish() ==>
          if Supported(cert.keyType) && Accepts(setup.exclusiveAdd, s.disk.zone, SiteNames(cert.dane))
          then && r == Ok(false) && Recorded(cert, d.dueAt, t.disk.now, s.pending, t.pending)
               && PendingPath(cert.name) in t.disk.pendingKeys
          else r.Err? && t.pending == s.pending)
  }

  /** Only this certificate's files, TLSA names and entry may differ. */
  ghost predicate OthersUntouched(cert: Certificate, d: Durable, pending: PendingMap, e: Durable, after: PendingMap) {
    && (e.certs == d.certs || OneLeafWritten(cert, d.certs, e.certs))
    && OneKeySaved(cert, d.keys, e.keys) && OnlyOwnNames(cert, d.zone, e.zone)
    && (e.pendingKeys == d.pendingKeys || OneKeyWritten(cert, d.pendingKeys, e.pendingKeys))
    && (after == pending || after == pending - {cert.name} || Recorded(cert, d.now, e.now, pending, after))
    && (e.stateFile == d.stateFile || (Recorded(cert, d.now, e.now, pending, after) && e.stateFile == after))
  }

  lemma NotActed(setup: Setup, cert: Certificate, dryRun: bool, s: Snapshot, t: Snapshot, d: Decision)
    requires !d.act && Untouched(s, t)
    ensures OthersUntouched(cert, s.disk, s.pending, t.disk, t.pending)
    ensures Outcome(setup.hash, cert, dryRun, s, t, Ok(false), d) && Dependable(setup, cert, dryRun, s, t, Ok(false), d)
  {
  }

  /** Time that passes before acting makes no difference. */
  lemma ActedLater(setup: Setup, reliable: bool, cert: Certificate, dryRun: bool, s: Snapshot, m: Snapshot, t: Snapshot,
                   r: Result<bool, RenewError>, d: Decision)
    requires Untouched(s, m) && Outcome(setup.hash, cert, dryRun, m, t, r, d)
    requires OthersUntouched(cert, m.disk, m.pending, t.disk, t.pending)
    requires reliable ==> Dependable(setup, cert, dryRun, m, t, r, d)
    ensures OthersUntouched(cert, s.disk, s.pending, t.disk, t.pending)
    ensures Outcome(setup.hash, cert, dryRun, s, t, r, d) && (reliable ==> Dependable(setup, cert, dryRun, s, t, r, d))
  {
  }

  lemma ShownAtOwnNames(hash: Hasher, cert: Certificate, d: Durable, e: Durable)
    requires OnlyShownIfInstalled(hash, cert, d.certs, e.certs, d.zone, e.zone)
    ensures OnlyOwnNames(cert, d.zone, e.zone)
  {
  }

  lemma ExtendedAtOwnNames(cert: Certificate, before: map<string, Log>, after: map<string, Log>)
    requires OnlyExtended(cert, before, after)
    ensures OnlyOwnNames(cert, before, after)
  {
  }

  /** The part after the decision to act. */
  method Act(w: World, c: Configuration, cert: Certificate, i: nat, state: State, dryRun: bool, d: Decision)
    returns (r: Result<bool, RenewError>)
    requires About(w, state, c, i) && cert == c.certificates[i]
    requires !Waiting(state.pendingRotations, cert.name, w.now) && d.act && d.dueAt <= w.now
    requires forall j :: 0 <= j < |cert.dane| ==> cert.dane[j].names != []
    modifies w, state
    ensures Running(w, state, c) && w.process.stage == Free
    ensures RenewedCarefully(w, i, cert.name in old(state.pendingRotations))
    ensures old(w.process.visited) <= w.process.visited <= old(w.process.visited) + {i} && old(w.now) <= w.now
    ensures OthersUntouched(cert, old(w.Disk()), old(state.pendingRotations), w.Disk(), state.pendingRotations)
    ensures FoundBy(old(w.hookSaw), w.hookSaw, if r == Ok(true) && !dryRun then |cert.inlineHooks| else 0, w.Disk())
    ensures Outcome(w.setup.hash, cert, dryRun, old(Now(w, state)), Now(w, state), r, d)
    ensures w.reliable ==> Dependable(w.setup, cert, dryRun, old(Now(w, state)), Now(w, state), r, d)
  {
    hide Exec, Safety.Guarded, Safety.KeptApart, Accepts, OnlyExtended, Displayed, Publish.OnlyShown;
    hide KeptKeys.Carried, OnlyOwnNames, OnlyShownIfInstalled;
    ghost var a, s := w.events, Now(w, state);
    if cert.name in state.pendingRotations {
      r := FinishRotation(w, c, cert, i, state, dryRun);
      ShownAtOwnNames(w.setup.hash, cert, s.disk, w.Disk());
    } else if cert.NeedsPrePublish() {
      var ok := StartRotation(w, c, cert, i, state, dryRun);
      r := if ok then Ok(false) else Err(PrePublishFailure);
      Safety.MaxTtlIsLongestWait(cert.dane);
      ExtendedAtOwnNames(cert, s.disk.zone, w.zone);
      KeptKeys.NothingInstalled(w.setup, w.start, a, w.events, i, [], false, s.disk, w.Disk());
    } else {
      r := RenewDirectly(w, c, cert, i, state, dryRun);
      ShownAtOwnNames(w.setup.hash, cert, s.disk, w.Disk());
    }
  }

  method RenewCertificate(w: World, c: Configuration, isIp: Validation.IpTest, i: nat, state: State,
                          force: bool, dryRun: bool)
    returns (r: Result<bool, RenewError>, d: Decision)
    requires About(w, state, c, i) && Validation.ValidConfig(c, isIp)
    modifies w, state
    ensures Running(w, state, c) && w.process.stage == Free
    ensures RenewedCarefully(w, i, c.certificates[i].name in old(state.pendingRotations))
    ensures old(w.process.visited) <= w.process.visited <= old(w.process.visited) + {i}
    ensures old(w.now) <= d.ttlAt <= d.dueAt <= w.now
    ensures Justified(d, old(state.pendingRotations), old(w.certs), c.certificates[i], force)
    ensures w.reliable ==> Informed(d, old(state.pendingRotations), old(w.certs), c.certificates[i], force)
    ensures OthersUntouched(c.certificates[i], old(w.Disk()), old(state.pendingRotations), w.Disk(),
                            state.pendingRotations)
    ensures Outcome(w.setup.hash, c.certificates[i], dryRun, old(Now(w, state)), Now(w, state), r, d)
    ensures w.reliable ==> Dependable(w.setup, c.certificates[i], dryRun, old(Now(w, state)), Now(w, state), r, d)
    ensures FoundBy(old(w.hookSaw), w.hookSaw,
                    if r == Ok(true) && !dryRun then |c.certificates[i].inlineHooks| else 0, w.Disk())
    ensures PlainOutcome(c.certificates[i], dryRun, old(Now(w, state)), Now(w, state), r, d)
    ensures w.reliable ==> PlainlyRenewed(c.certificates[i], dryRun, old(Now(w, state)), r, d)
  {
    hide Exec, Safety.Guarded, Safety.KeptApart, KeptKeys.Carried, Outcome, Dependable, OthersUntouched;
    hide PlainOutcome, PlainlyRenewed;
    ghost var a, s := w.events, Now(w, state);
    var cert := c.certificates[i];
    d := Decide(w, cert, state, force);
    ghost var b, m := w.events, Now(w, state);
    if !d.act {
      NotActed(w.setup, cert, dryRun, s, m, d);
      KeptKeys.NothingInstalled(w.setup, w.start, a, b, i, [], cert.name in s.pending, s.disk, m.disk);
      OutcomeIsPlain(w.setup.hash, cert, dryRun, s, m, Ok(false), d);
      RenewalIsPlain(w.setup, cert, dryRun, s, m, Ok(false), d);
      return Ok(false), d;
    }
    var names, solvers := Pipeline.PrepareSolvers(c, isIp, i);
    Validation.ValidIsNamed(c, isIp);
    hide Validation.ValidConfig;
    if cert.name in state.pendingRotations {
      var p := state.pendingRotations[cert.name];
      TtlExpiredStays(p.publishedAt, p.oldTtl, d.ttlAt, w.now);
    }
    r := Act(w, c, cert, i, state, dryRun, d);
    ActedLater(w.setup, w.reliable, cert, dryRun, s, m, Now(w, state), r, d);
    KeptKeys.CarriedAround(w.setup, w.start, a, b, w.events, w.events, i, cert.name in s.pending, s.disk, m.disk,
                           w.Disk(), w.Disk());
    OutcomeIsPlain(w.setup.hash, cert, dryRun, s, Now(w, state), r, d);
    if w.reliable {
      RenewalIsPlain(w.setup, cert, dryRun, s, Now(w, state), r, d);
    }
  }
}
