/** One certificate's renewal (src/renew.rs:136-402): the decision, the key, the issuance and
    the publication, as steps on the world. */
module Renew {
  import opened Prelude
  import opened Config
  import opened Expiry
  import opened History
  import opened Tlsa
  import opened Protocol
  import opened World
  import opened Hooks
  import opened PrePublish
  import opened Publish
  import KeptKeys
  import Safety

  /** The state object of a run: the pending rotations by certificate name. */
  class State {
    var pendingRotations: PendingMap

    constructor (loaded: PendingMap)
      ensures pendingRotations == loaded
    {
      pendingRotations := loaded;
    }
  }

  datatype RenewError = KeyFailure | PrePublishFailure | OrderFailure

  datatype KeyResult = KeyResult(key: Key, needsSave: bool)

  /** The run's memory is the protocol's memory. */
  ghost predicate Running(w: World, state: State, c: Configuration)
    reads w, state
  {
    && w.Valid() && w.setup.certificates == c.certificates
    && w.process.Up? && w.process.pending == state.pendingRotations
  }

  /** Between two certificates, with certificate `i` still to come. */
  ghost predicate About(w: World, state: State, c: Configuration, i: nat)
    reads w, state
  {
    Running(w, state, c) && i < |c.certificates| && w.process.stage == Free && i !in w.process.visited
  }

  /** No file and no RRset changed; time may have passed. */
  predicate SameFiles(d: Durable, e: Durable) {
    d.now <= e.now && e == d.(now := e.now)
  }

  predicate Supported(t: KeyType) {
    t == EcdsaP256 || t == EcdsaP384
  }

  function KeyLocation(cert: Certificate): Option<string> {
    if cert.keyCredential.Some? then cert.keyCredential else cert.keyPath
  }

  /** At most the certificate's own private key file was written. */
  predicate OneKeySaved(cert: Certificate, before: map<string, Key>, after: map<string, Key>) {
    after == before
    || (&& KeyLocation(cert).Some? && KeyLocation(cert).value in after
        && after == before[KeyLocation(cert).value := after[KeyLocation(cert).value]])
  }

  predicate KeySaved(cert: Certificate, key: Key, keys: map<string, Key>) {
    KeyLocation(cert).Some? ==> KeyLocation(cert).value in keys && keys[KeyLocation(cert).value] == key
  }

  /** The certificate file and the private key file belong together. */
  predicate Agrees(cert: Certificate, certs: map<string, Leaf>, keys: map<string, Key>) {
    && cert.certPath in certs
    && (KeyLocation(cert).Some? ==>
          && KeyLocation(cert).value in keys
          && certs[cert.certPath].spki == keys[KeyLocation(cert).value].spki)
  }

  /** `CertKeyPair::generate`: RSA is refused, and the random source may fail. */
  method GenerateKey(w: World, keyType: KeyType) returns (key: Option<Key>)
    ensures key.Some? ==> Supported(keyType)
    ensures w.reliable && Supported(keyType) ==> key.Some?
  {
    var happens, ok := w.Fate();
    var pkcs8: Bytes, spki: Bytes := *, *;
    key := if ok && Supported(keyType) then Some(Key(pkcs8, spki)) else None;
  }

  /** The first branch of `determine_key`: the entry leaves memory before its key is read. */
  method TakePendingKey(w: World, c: Configuration, cert: Certificate, i: nat, state: State)
    returns (key: Option<Key>)
    requires About(w, state, c, i) && cert == c.certificates[i] && cert.name in state.pendingRotations
    requires var p := state.pendingRotations[cert.name]; TtlExpired(p.publishedAt, p.oldTtl, w.now)
    modifies w, state
    ensures Running(w, state, c) && Grew(w) && w.Disk() == old(w.Disk())
    ensures state.pendingRotations == old(state.pendingRotations) - {cert.name}
    ensures w.process.visited == old(w.process.visited) + {i}
    ensures key.Some? ==>
              var path := old(state.pendingRotations)[cert.name].keyPath;
              && path in w.pendingKeys && key.value == w.pendingKeys[path]
              && w.process.stage == Issuing(i, key.value) && Supported(cert.keyType)
    ensures key.None? ==> w.process.stage == Free
    ensures w.reliable ==>
              (key.Some? <==>
                 Supported(cert.keyType) && old(state.pendingRotations)[cert.name].keyPath in w.pendingKeys)
  {
    var path := state.pendingRotations[cert.name].keyPath;
    key := w.LoadKey(w.pendingKeys, path);
    if !Supported(cert.keyType) {
      key := None;
    }
    state.pendingRotations := state.pendingRotations - {cert.name};
    if key.Some? {
      w.Think(TakePending(i));
    } else {
      w.Think(LosePending(i));
    }
  }

  /** At most the certificate's own pending key file was written. */
  predicate OneKeyWritten(cert: Certificate, before: map<string, Key>, after: map<string, Key>) {
    PendingPath(cert.name) in after && after == before[PendingPath(cert.name) := after[PendingPath(cert.name)]]
  }

  /** The pending map gained one entry, stamped between two instants. */
  predicate Recorded(cert: Certificate, from: Instant, to: Instant, before: PendingMap, after: PendingMap) {
    && cert.name in after && after == before[cert.name := after[cert.name]]
    && after[cert.name].keyPath == PendingPath(cert.name) && after[cert.name].oldTtl == MaxTtl(cert.dane)
    && from <= after[cert.name].publishedAt <= to
  }

  /** The adds, the entry and the save, once the key file is written. */
  method PublishAndRecord(w: World, c: Configuration, cert: Certificate, i: nat, key: Key, state: State)
    returns (ok: bool)
    requires Running(w, state, c) && i < |c.certificates| && cert == c.certificates[i]
    requires w.process.stage == Publishing(i, key, {})
    requires forall j :: 0 <= j < |cert.dane| ==> cert.dane[j].names != []
    modifies w, state
    ensures Running(w, state, c) && Grew(w) && w.process.stage == Free && w.process.visited == old(w.process.visited)
    ensures w.certs == old(w.certs) && w.keys == old(w.keys) && w.pendingKeys == old(w.pendingKeys)
    ensures old(w.now) <= w.now
    ensures state.pendingRotations == old(state.pendingRotations)
            || Recorded(cert, old(w.now), w.now, old(state.pendingRotations), state.pendingRotations)
    ensures w.stateFile == old(w.stateFile)
            || (&& Recorded(cert, old(w.now), w.now, old(state.pendingRotations), state.pendingRotations)
                && w.stateFile == state.pendingRotations)
    ensures ok ==> Recorded(cert, old(w.now), w.now, old(state.pendingRotations), state.pendingRotations)
                   && w.stateFile == state.pendingRotations
    ensures OnlyExtended(cert, old(w.zone), w.zone)
    ensures w.reliable ==> (ok <==> Accepts(w.setup.exclusiveAdd, old(w.zone), SiteNames(cert.dane)))
    ensures w.reliable && !ok ==>
              state.pendingRotations == old(state.pendingRotations) && w.stateFile == old(w.stateFile)
  {
    hide Exec, Safety.Guarded, Safety.KeptApart, Accepts, OnlyExtended, MaxTtl, SiteNames, AllAdded, Push;
    var maxTtl := PrePublishDane(w, cert, i, key);
    if maxTtl.None? {
      w.LeaveCertificate();
      return false;
    }
    var publishedAt := w.ReadClock();
    state.pendingRotations :=
      state.pendingRotations[cert.name := PendingRotation(PendingPath(cert.name), publishedAt, maxTtl.value)];
    w.Think(RecordPending);
    ok := w.WriteState(state.pendingRotations);
  }

  /** The rotation branch of `determine_key`: fresh key, key file, adds, entry, save, in that
      order. It never yields a key to issue with; renewal waits for a later run. */
  method StartRotation(w: World, c: Configuration, cert: Certificate, i: nat, state: State, dryRun: bool)
    returns (ok: bool)
    requires About(w, state, c, i) && cert == c.certificates[i]
    requires cert.name !in state.pendingRotations && cert.NeedsPrePublish()
    requires forall j :: 0 <= j < |cert.dane| ==> cert.dane[j].names != []
    modifies w, state
    ensures Running(w, state, c) && Grew(w) && w.process.stage == Free
    ensures old(w.process.visited) <= w.process.visited <= old(w.process.visited) + {i}
    ensures w.certs == old(w.certs) && w.keys == old(w.keys) && old(w.now) <= w.now
    ensures dryRun ==> w.Disk() == old(w.Disk()) && state.pendingRotations == old(state.pendingRotations)
    ensures state.pendingRotations == old(state.pendingRotations)
            || Recorded(cert, old(w.now), w.now, old(state.pendingRotations), state.pendingRotations)
    ensures w.stateFile == old(w.stateFile)
            || (&& Recorded(cert, old(w.now), w.now, old(state.pendingRotations), state.pendingRotations)
                && w.stateFile == state.pendingRotations)
    ensures w.pendingKeys == old(w.pendingKeys) || OneKeyWritten(cert, old(w.pendingKeys), w.pendingKeys)
    ensures ok && !dryRun ==>
              && Recorded(cert, old(w.now), w.now, old(state.pendingRotations), state.pendingRotations)
              && w.stateFile == state.pendingRotations && PendingPath(cert.name) in w.pendingKeys
    ensures OnlyExtended(cert, old(w.zone), w.zone)
    ensures ok ==> Supported(cert.keyType)
    ensures w.reliable && dryRun ==> (ok <==> Supported(cert.keyType))
    ensures w.reliable && !dryRun ==>
              (ok <==> Supported(cert.keyType) && Accepts(w.setup.exclusiveAdd, old(w.zone), SiteNames(cert.dane)))
    ensures w.reliable && !ok ==>
              state.pendingRotations == old(state.pendingRotations) && w.stateFile == old(w.stateFile)
  {
    var newKey := GenerateKey(w, cert.keyType);
    if newKey.None? {
      return false;
    }
    if dryRun {
      return true;
    }
    hide Exec, Safety.Guarded, Safety.KeptApart, Accepts;
    ok := w.WritePendingKey(i, newKey.value);
    if !ok {
      w.LeaveCertificate();
      return;
    }
    ok := PublishAndRecord(w, c, cert, i, newKey.value, state);
  }

  /** The stored private key, if the certificate keeps its key and the file has one. */
  function StoredKey(cert: Certificate, keys: map<string, Key>): Option<Key> {
    if !cert.rotateKey && Supported(cert.keyType) && KeyLocation(cert).Some? && KeyLocation(cert).value in keys
    then Some(keys[KeyLocation(cert).value]) else None
  }

  /** The other branches of `determine_key`: rotate without pre-publication, or reuse the
      stored key, or make the first one. A reused key is not saved again. A stored key that
      can be read is reused. */
  method LoadOrGenerateKey(w: World, c: Configuration, cert: Certificate, i: nat, state: State)
    returns (r: Option<KeyResult>)
    requires About(w, state, c, i) && cert == c.certificates[i]
    requires cert.name !in state.pendingRotations && !cert.NeedsPrePublish()
    modifies w, state
    ensures Running(w, state, c) && Grew(w) && w.Disk() == old(w.Disk())
    ensures state.pendingRotations == old(state.pendingRotations)
    ensures old(w.process.visited) <= w.process.visited <= old(w.process.visited) + {i}
    ensures r.Some? ==> w.process.stage == Issuing(i, r.value.key) && Supported(cert.keyType)
    ensures r.None? ==> w.process.stage == Free
    ensures r.Some? && !r.value.needsSave ==> StoredKey(cert, w.keys) == Some(r.value.key)
    ensures w.reliable && StoredKey(cert, w.keys).Some? ==> r == Some(KeyResult(StoredKey(cert, w.keys).value, false))
    ensures w.reliable ==> (r.Some? <==> Supported(cert.keyType))
  {
    r := None;
    if !cert.rotateKey && KeyLocation(cert).Some? {
      var loaded := w.LoadKey(w.keys, KeyLocation(cert).value);
      if loaded.Some? && Supported(cert.keyType) {
        r := Some(KeyResult(loaded.value, false));
      }
    }
    if r.None? {
      var generated := GenerateKey(w, cert.keyType);
      if generated.None? {
        return None;
      }
      r := Some(KeyResult(generated.value, true));
    }
    w.Think(UseKey(i, r.value.key));
  }

  /** Storing the key where the configuration says; no other file is touched. */
  method SaveKey(w: World, cert: Certificate, key: Key) returns (ok: bool)
    requires w.Valid() && w.process.Up? && w.process.stage.Installed? && key == w.process.stage.key
    modifies w
    ensures w.Valid() && Grew(w) && w.process == old(w.process) && old(w.now) <= w.now
    ensures w.Disk() == old(w.Disk()).(now := w.now, keys := w.keys) && OneKeySaved(cert, old(w.keys), w.keys)
    ensures ok ==> KeySaved(cert, key, w.keys)
    ensures w.reliable ==> ok
  {
    if cert.keyCredential.Some? {
      ok := w.WriteKey(cert.keyCredential.value, key);
    } else if cert.keyPath.Some? {
      ok := w.WriteKey(cert.keyPath.value, key);
    } else {
      ok := true;
    }
  }

  /** How the steps of certificate `i` bear on the certificates guarded so far. */
  twostate predicate RenewedCarefully(w: World, i: nat, entry: bool)
    reads w
  {
    && w.start == old(w.start)
    && KeptKeys.Carried(w.setup, w.start, old(w.events), w.events, i, entry, old(w.Disk()), w.Disk())
  }

  /** The same for the installation of a key. */
  twostate predicate InstalledCarefully(w: World, i: nat, spki: Bytes)
    reads w
  {
    && w.start == old(w.start)
    && KeptKeys.Installed(w.setup, w.start, old(w.events), w.events, i, spki, old(w.Disk()), w.Disk())
  }

  /** Writing the certificate file. */
  method Install(w: World, cert: Certificate, i: nat, leaf: Leaf) returns (ok: bool)
    requires w.Valid() && w.process.Up? && w.process.stage.Issuing? && w.process.stage.i == i
    requires i < |w.setup.certificates| && cert == w.setup.certificates[i] && leaf.spki == w.process.stage.key.spki
    modifies w
    ensures w.Valid() && NoHooks(w) && InstalledCarefully(w, i, leaf.spki)
    ensures ok ==> Did(w.setup, old(w.Cur()), InstallCertificate(leaf), w.Cur())
    ensures Did(w.setup, old(w.Cur()), InstallCertificate(leaf), w.Cur()) || Passed(old(w.Cur()), w.Cur())
    ensures w.reliable ==> ok
  {
    hide Safety.Guarded, Safety.KeptApart, Exec, Safety.MayInstall, KeptKeys.SameRecords;
    ghost var a, d := w.events, w.Disk();
    if i in Safety.Guarded(w.setup, w.start, a)
       && !KeptKeys.Rekeyed(w.setup, i, d.certs, d.certs[cert.certPath := leaf]) {
      KeptKeys.SameRecordsMayInstall(w.setup, w.start, a, i, leaf);
    }
    ok := w.WriteCertificate(cert.certPath, leaf);
    if !Did(w.setup, old(w.Cur()), InstallCertificate(leaf), w.Cur()) {
      KeptKeys.NothingInstalled(w.setup, w.start, a, w.events, i, leaf.spki, false, d, w.Disk());
    }
  }

  /** Storing the key and setting permissions, once the certificate has been written. */
  method Store(w: World, cert: Certificate, k: KeyResult) returns (ok: bool)
    requires w.Valid() && w.process.Up? && w.process.stage.Installed? && k.key == w.process.stage.key
    modifies w
    ensures w.Valid() && Grew(w) && w.process == old(w.process) && old(w.now) <= w.now
    ensures w.Disk() == old(w.Disk()).(now := w.now, keys := w.keys)
    ensures if k.needsSave then OneKeySaved(cert, old(w.keys), w.keys) else w.keys == old(w.keys)
    ensures ok && k.needsSave ==> KeySaved(cert, k.key, w.keys)
    ensures w.reliable ==> ok
  {
    ok := true;
    if k.needsSave {
      ok := SaveKey(w, cert, k.key);
    }
    if ok {
      var happens;
      happens, ok := w.Fate();
    }
  }

  /** From the certificate request to the stored files. */
  method IssueAndStore(w: World, c: Configuration, cert: Certificate, i: nat, k: KeyResult, state: State)
    returns (leaf: Option<Leaf>)
    requires Running(w, state, c) && i < |c.certificates| && cert == c.certificates[i]
    requires w.process.stage == Issuing(i, k.key)
    modifies w
    ensures Running(w, state, c) && w.process.visited == old(w.process.visited) && NoHooks(w)
    ensures InstalledCarefully(w, i, k.key.spki)
    ensures w.stateFile == old(w.stateFile) && w.pendingKeys == old(w.pendingKeys) && old(w.now) <= w.now
    ensures w.zone == old(w.zone)
    ensures w.certs == old(w.certs) || Installs(cert, k.key, old(w.certs), w.certs)
    ensures if k.needsSave then OneKeySaved(cert, old(w.keys), w.keys) else w.keys == old(w.keys)
    ensures leaf.Some? ==> w.process.stage == Installed(i, k.key, leaf.value)
                           && Installs(cert, k.key, old(w.certs), w.certs) && w.certs[cert.certPath] == leaf.value
    ensures leaf.None? ==> w.process.stage == Free
    ensures leaf.Some? && k.needsSave ==> KeySaved(cert, k.key, w.keys)
    ensures w.reliable ==> (leaf.Some? <==> Supported(cert.keyType))
    ensures leaf.Some? ==> Supported(cert.keyType)
  {
    hide Exec, Safety.Guarded, Safety.KeptApart, KeptKeys.Installed, KeptKeys.Carried;
    ghost var a, d := w.events, w.Disk();
    if Supported(cert.keyType) {
      leaf := w.IssueCertificate(cert.domains, k.key);
    } else {
      leaf := None;
    }
    if leaf.None? {
      w.LeaveCertificate();
      KeptKeys.NothingInstalled(w.setup, w.start, a, w.events, i, k.key.spki, false, d, w.Disk());
      return;
    }
    ghost var b, m := w.events, w.Disk();
    var ok := Install(w, cert, i, leaf.value);
    ghost var c1, n := w.events, w.Disk();
    if ok {
      ok := Store(w, cert, k);
    }
    if !ok {
      w.LeaveCertificate();
      leaf := None;
    }
    KeptKeys.InstalledAround(w.setup, w.start, a, b, c1, w.events, i, k.key.spki, d, m, n, w.Disk());
  }

  /** From the certificate request to the hooks. On success the installed certificate carries
      the determined key; on failure nothing that a later run starts from has changed. */
  method Complete(w: World, c: Configuration, cert: Certificate, i: nat, k: KeyResult, state: State)
    returns (ok: bool)
    requires Running(w, state, c) && i < |c.certificates| && cert == c.certificates[i]
    requires w.process.stage == Issuing(i, k.key)
    requires forall j :: 0 <= j < |cert.dane| ==> cert.dane[j].names != []
    modifies w
    ensures Running(w, state, c) && w.process.stage == Free && w.process.visited == old(w.process.visited)
    ensures InstalledCarefully(w, i, k.key.spki)
    ensures w.stateFile == old(w.stateFile) && w.pendingKeys == old(w.pendingKeys) && old(w.now) <= w.now
    ensures w.certs == old(w.certs) || Installs(cert, k.key, old(w.certs), w.certs)
    ensures if k.needsSave then OneKeySaved(cert, old(w.keys), w.keys) else w.keys == old(w.keys)
    ensures ok ==> Installs(cert, k.key, old(w.certs), w.certs) && Supported(cert.keyType)
    ensures ok && k.needsSave ==> KeySaved(cert, k.key, w.keys)
    ensures w.hookLog == old(w.hookLog) + if ok then InlineRuns(cert) else []
    ensures FoundBy(old(w.hookSaw), w.hookSaw, if ok then |cert.inlineHooks| else 0, w.Disk())
    ensures OnlyShownIfInstalled(w.setup.hash, cert, old(w.certs), w.certs, old(w.zone), w.zone)
    ensures w.reliable && Supported(cert.keyType) ==> ok && Displayed(w.setup.hash, cert, w.certs, w.zone)
  {
    hide OnlyShown, Shows, ShowsPublished, BlocksApart, Exec, Safety.Guarded, Safety.KeptApart, Safety.MayInstall;
    hide KeptKeys.Installed, KeptKeys.Carried;
    ghost var a, d := w.events, w.Disk();
    var leaf := IssueAndStore(w, c, cert, i, k, state);
    if leaf.None? {
      return false;
    }
    ghost var b, n := w.events, w.Disk();
    var published := PublishAll(w, cert, i, leaf.value);
    if w.reliable && BlocksApart(cert) {
      AllPublishedShow(w.setup.hash, w.zone, cert, leaf.value, published);
    }
    var results := RunHooks(w, InlineRuns(cert), false);
    w.LeaveCertificate();
    ok := true;
    KeptKeys.InstalledAround(w.setup, w.start, a, a, b, w.events, i, k.key.spki, d, d, n, w.Disk());
  }

  /** The TLSA names show the records of the certificate in the file. */
  ghost predicate Displayed(hash: Hasher, cert: Certificate, certs: map<string, Leaf>, zone: map<string, Log>) {
    cert.certPath in certs && (BlocksApart(cert) ==> Shows(hash, zone, cert, certs[cert.certPath]))
  }

  /** That is what a successful publication leaves: the certificate's records and nothing else. */
  lemma DisplayedIsSettled(setup: Setup, d: Durable, i: nat)
    requires i < |setup.certificates| && BlocksApart(setup.certificates[i])
    requires Displayed(setup.hash, setup.certificates[i], d.certs, d.zone)
    ensures KeptKeys.Settled(setup, d, i)
  {
    var cert := setup.certificates[i];
    var leaf := d.certs[cert.certPath];
    forall j: nat, name | IsPrePublishedSite(cert, j, name)
      ensures Current(LogOf(d.zone, name)) == {FromSpki(setup.hash, leaf.spki, cert.dane[j])}
    {
      KeyRecordIsCertificateRecord(setup.hash, leaf, cert.dane[j]);
    }
  }

  /** Records change only once the new certificate is in its file, and only to its records. */
  ghost predicate OnlyShownIfInstalled(hash: Hasher, cert: Certificate, before: map<string, Leaf>,
                                       after: map<string, Leaf>, zone0: map<string, Log>, zone: map<string, Log>)
  {
    zone == zone0 || (OneLeafWritten(cert, before, after) && OnlyShown(hash, zone0, zone, cert, after[cert.certPath]))
  }

  /** Only this certificate's file was written. */
  predicate OneLeafWritten(cert: Certificate, before: map<string, Leaf>, after: map<string, Leaf>) {
    cert.certPath in after && after == before[cert.certPath := after[cert.certPath]]
  }

  /** The certificate file now holds a leaf with this key, and no other file changed. */
  predicate Installs(cert: Certificate, key: Key, before: map<string, Leaf>, after: map<string, Leaf>) {
    OneLeafWritten(cert, before, after) && after[cert.certPath].spki == key.spki
  }

  // ----- The decision -----

  /** A pending entry whose TTL has not passed at the given reading of the clock. */
  predicate Waiting(pending: PendingMap, name: string, at: Instant) {
    name in pending && !TtlExpired(pending[name].publishedAt, pending[name].oldTtl, at)
  }

  /** An installed certificate that needs no renewal yet. */
  predicate NotDue(certs: map<string, Leaf>, cert: Certificate, force: bool, at: Instant) {
    && !force && cert.certPath in certs
    && !ExpiresWithinDays(certs[cert.certPath].notAfter, at, cert.renewBeforeDays)
  }

  /** What was decided about a certificate: the two readings of the clock, whether the installed
      certificate was read, and whether to act. */
  datatype Decision = Decision(ttlAt: Instant, dueAt: Instant, read: bool, act: bool)

  /** The program acts exactly on a certificate that does not wait for a TTL and is forced, due,
      or not to be read. */
  predicate Justified(d: Decision, pending: PendingMap, certs: map<string, Leaf>, cert: Certificate, force: bool) {
    && (d.read ==> cert.certPath in certs)
    && (d.act <==> !Waiting(pending, cert.name, d.ttlAt) && !(d.read && NotDue(certs, cert, force, d.dueAt)))
  }

  /** A certificate that had to be looked at was read. */
  predicate Informed(d: Decision, pending: PendingMap, certs: map<string, Leaf>, cert: Certificate, force: bool) {
    !force && !Waiting(pending, cert.name, d.ttlAt) && cert.certPath in certs ==> d.read
  }

  /** The two tests, each with its own reading of the clock; the TTL test comes first and
      `force` does not pass it. An unreadable certificate counts as due. */
  method Decide(w: World, cert: Certificate, state: State, force: bool) returns (d: Decision)
    requires w.Valid()
    modifies w
    ensures w.Valid() && Grew(w) && Passed(old(w.Cur()), w.Cur())
    ensures old(w.now) <= d.ttlAt <= d.dueAt <= w.now
    ensures Justified(d, state.pendingRotations, w.certs, cert, force)
    ensures w.reliable ==> Informed(d, state.pendingRotations, w.certs, cert, force)
  {
    var ttlAt := w.ReadClock();
    if cert.name in state.pendingRotations {
      var p := state.pendingRotations[cert.name];
      if !TtlExpired(p.publishedAt, p.oldTtl, ttlAt) {
        return Decision(ttlAt, ttlAt, false, false);
      }
    }
    var dueAt := w.ReadClock();
    if force {
      return Decision(ttlAt, dueAt, false, true);
    }
    var loaded := w.LoadCertificate(cert.certPath);
    var due := loaded.None? || ExpiresWithinDays(loaded.value.notAfter, dueAt, cert.renewBeforeDays);
    d := Decision(ttlAt, dueAt, loaded.Some?, due);
  }

  // ----- Acting -----

  /** The certificate installed is for the key named by the pending entry. */
  predicate InstallsPending(cert: Certificate, pending: PendingMap, files: map<string, Key>,
                            before: map<string, Leaf>, after: map<string, Leaf>)
  {
    && cert.name in pending && pending[cert.name].keyPath in files
    && Installs(cert, files[pending[cert.name].keyPath], before, after)
  }

  /** Acting on a certificate whose pending entry has waited long enough. Whatever happens,
      the saved entry and its key file stay, and the only key ever installed is that key; in a
      dry run the entry leaves memory and nothing else changes. */
  method FinishRotation(w: World, c: Configuration, cert: Certificate, i: nat, state: State, dryRun: bool)
    returns (r: Result<bool, RenewError>)
    requires About(w, state, c, i) && cert == c.certificates[i] && cert.name in state.pendingRotations
    requires var p := state.pendingRotations[cert.name]; TtlExpired(p.publishedAt, p.oldTtl, w.now)
    requires forall j :: 0 <= j < |cert.dane| ==> cert.dane[j].names != []
    modifies w, state
    ensures Running(w, state, c) && w.process.stage == Free
    ensures RenewedCarefully(w, i, true)
    ensures w.process.visited == old(w.process.visited) + {i} && old(w.now) <= w.now
    ensures state.pendingRotations == old(state.pendingRotations) - {cert.name}
    ensures w.stateFile == old(w.stateFile) && w.pendingKeys == old(w.pendingKeys)
    ensures w.certs == old(w.certs)
            || InstallsPending(cert, old(state.pendingRotations), w.pendingKeys, old(w.certs), w.certs)
    ensures OneKeySaved(cert, old(w.keys), w.keys)
    ensures r.Ok? ==> r.value && Supported(cert.keyType)
    ensures r.Ok? && !dryRun ==>
              && InstallsPending(cert, old(state.pendingRotations), w.pendingKeys, old(w.certs), w.certs)
              && KeySaved(cert, w.pendingKeys[old(state.pendingRotations)[cert.name].keyPath], w.keys)
    ensures dryRun ==> w.Disk() == old(w.Disk())
    ensures w.hookLog == old(w.hookLog) + if r.Ok? && !dryRun then InlineRuns(cert) else []
    ensures FoundBy(old(w.hookSaw), w.hookSaw, if r.Ok? && !dryRun then |cert.inlineHooks| else 0, w.Disk())
    ensures OnlyShownIfInstalled(w.setup.hash, cert, old(w.certs), w.certs, old(w.zone), w.zone)
    ensures w.reliable ==>
              (r.Ok? <==> Supported(cert.keyType) && old(state.pendingRotations)[cert.name].keyPath in w.pendingKeys)
    ensures w.reliable && r.Ok? && !dryRun ==> Displayed(w.setup.hash, cert, w.certs, w.zone)
  {
    hide Exec, Safety.Guarded, Safety.KeptApart, Safety.MayInstall, Displayed, OnlyShown;
    hide KeptKeys.Installed, KeptKeys.Carried;
    ghost var a, d := w.events, w.Disk();
    if i in Safety.Guarded(w.setup, w.start, a) {
      KeptKeys.PendingMayInstall(w.setup, w.start, a, i);
    }
    var key := TakePendingKey(w, c, cert, i, state);
    ghost var b, m := w.events, w.Disk();
    if key.None? || dryRun {
      w.LeaveCertificate();
      KeptKeys.NothingInstalled(w.setup, w.start, a, w.events, i, [], true, d, w.Disk());
      return if key.None? then Err(KeyFailure) else Ok(true);
    }
    var ok := Complete(w, c, cert, i, KeyResult(key.value, true), state);
    KeptKeys.InstalledAround(w.setup, w.start, a, b, w.events, w.events, i, key.value.spki, d, m, w.Disk(), w.Disk());
    KeptKeys.InstalledOfRight(w.setup, w.start, a, w.events, i, key.value.spki, d, w.Disk());
    r := if ok then Ok(true) else Err(OrderFailure);
  }

  /** A certificate without pre-publication is issued in the same run: for its stored key if it
      keeps one and that is read, else for a fresh key, which is then stored. */
  method RenewDirectly(w: World, c: Configuration, cert: Certificate, i: nat, state: State, dryRun: bool)
    returns (r: Result<bool, RenewError>)
    requires About(w, state, c, i) && cert == c.certificates[i]
    requires cert.name !in state.pendingRotations && !cert.NeedsPrePublish()
    requires forall j :: 0 <= j < |cert.dane| ==> cert.dane[j].names != []
    modifies w, state
    ensures Running(w, state, c) && w.process.stage == Free
    ensures RenewedCarefully(w, i, false)
    ensures old(w.process.visited) <= w.process.visited <= old(w.process.visited) + {i} && old(w.now) <= w.now
    ensures state.pendingRotations == old(state.pendingRotations)
    ensures w.stateFile == old(w.stateFile) && w.pendingKeys == old(w.pendingKeys)
    ensures w.certs == old(w.certs) || OneLeafWritten(cert, old(w.certs), w.certs)
    ensures OneKeySaved(cert, old(w.keys), w.keys)
    ensures dryRun ==> w.Disk() == old(w.Disk())
    ensures r.Ok? ==> r.value && Supported(cert.keyType)
    ensures r.Ok? && !dryRun ==> OneLeafWritten(cert, old(w.certs), w.certs) && Agrees(cert, w.certs, w.keys)
    ensures OnlyShownIfInstalled(w.setup.hash, cert, old(w.certs), w.certs, old(w.zone), w.zone)
    ensures w.hookLog == old(w.hookLog) + if r.Ok? && !dryRun then InlineRuns(cert) else []
    ensures FoundBy(old(w.hookSaw), w.hookSaw, if r.Ok? && !dryRun then |cert.inlineHooks| else 0, w.Disk())
    ensures w.reliable ==> (r.Ok? <==> Supported(cert.keyType))
    ensures w.reliable && r.Ok? && !dryRun ==> Displayed(w.setup.hash, cert, w.certs, w.zone)
    ensures w.reliable && r.Ok? && !dryRun && StoredKey(cert, old(w.keys)).Some? ==>
              w.keys == old(w.keys) && w.certs[cert.certPath].spki == StoredKey(cert, old(w.keys)).value.spki
  {
    hide Exec, Safety.Guarded, Safety.KeptApart, Displayed, OnlyShown, KeptKeys.Installed, KeptKeys.Carried;
    ghost var a, d := w.events, w.Disk();
    var k := LoadOrGenerateKey(w, c, cert, i, state);
    ghost var b, m := w.events, w.Disk();
    if k.None? || dryRun {
      w.LeaveCertificate();
      KeptKeys.NothingInstalled(w.setup, w.start, a, w.events, i, [], false, d, w.Disk());
      return if k.None? then Err(KeyFailure) else Ok(true);
    }
    var ok := Complete(w, c, cert, i, k.value, state);
    KeptKeys.InstalledAround(w.setup, w.start, a, b, w.events, w.events, i, k.value.key.spki, d, m, w.Disk(), w.Disk());
    KeptKeys.InstalledIsCarried(w.setup, w.start, a, w.events, i, k.value.key.spki, d, w.Disk());
    r := if ok then Ok(true) else Err(OrderFailure);
  }
}
