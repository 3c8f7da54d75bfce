/** Safety of the rotation protocol over every run: clients that validate by DANE are never
    shown an RRset without the installed certificate's record, whatever fails or crashes. */
module Safety {
  import opened Prelude
  import opened Config
  import opened Expiry
  import opened History
  import opened Tlsa
  import opened Protocol
  import Names

  /** What the operator must keep apart: certificates have their own names and files, and no
      two DANE blocks share a TLSA name, since a replacement removes the whole RRset. */
  ghost predicate Separate(setup: Setup) {
    var cs := setup.certificates;
    && (forall i, k :: 0 <= i < k < |cs| ==> cs[i].name != cs[k].name && cs[i].certPath != cs[k].certPath)
    && (forall i: nat, j: nat, m, k: nat, l: nat, n ::
          (i < |cs| && k < |cs| && IsSite(cs[i], j, m) && IsSite(cs[k], l, n)
           && Names.Canonical(m) == Names.Canonical(n)) ==> i == k && j == l)
  }

  /** Certificates with a pre-published block: the ones the promise is about. */
  predicate Covered(setup: Setup, i: nat) {
    && i < |setup.certificates|
    && exists j :: 0 <= j < |setup.certificates[i].dane| && setup.certificates[i].dane[j].PrePublished()
  }

  /** Those whose key changes go through pre-publication. */
  predicate Rotating(setup: Setup, i: nat) {
    Covered(setup, i) && setup.certificates[i].NeedsPrePublish()
  }

  /** Those that are to keep their key (`rotate_key = false`), with nothing published before. */
  predicate KeepsKey(setup: Setup, i: nat) {
    Covered(setup, i) && !setup.certificates[i].rotateKey
  }

  /** The property clients of certificate `i` care about: for each of its pre-published blocks and
      each name, every answer some client may still act on holds the record of the installed
      certificate. */
  ghost predicate ClientsValidate(setup: Setup, s: Sys, i: nat) {
    forall j: nat, name, answer ::
      i < |setup.certificates| && IsPrePublishedSite(setup.certificates[i], j, name)
      && setup.certificates[i].certPath in s.disk.certs
      && Usable(LogOf(s.disk.zone, name), s.disk.now, setup.certificates[i].dane[j].ttl * NANOS, answer)
      ==> FromCertificate(setup.hash, s.disk.certs[setup.certificates[i].certPath], setup.certificates[i].dane[j])
            in answer
  }

  /** The records of a public key have been present at every pre-published name of a
      certificate since `since`. */
  ghost predicate HeldSince(setup: Setup, zone: map<string, Log>, i: nat, spki: Bytes, since: Instant)
    requires i < |setup.certificates|
  {
    var c := setup.certificates[i];
    forall j: nat, name :: IsPrePublishedSite(c, j, name) ==>
      PresentSince(LogOf(zone, name), FromSpki(setup.hash, spki, c.dane[j]), since)
  }

  /** The same for a whole TTL of each block, counted back from `now`. */
  ghost predicate HeldForTtl(setup: Setup, zone: map<string, Log>, i: nat, spki: Bytes, now: Instant)
    requires i < |setup.certificates|
  {
    var c := setup.certificates[i];
    forall j: nat, name :: IsPrePublishedSite(c, j, name) ==>
      PresentSince(LogOf(zone, name), FromSpki(setup.hash, spki, c.dane[j]), now - c.dane[j].ttl * NANOS)
  }

  /** The RRset at each of its pre-published names holds the record of a key. */
  ghost predicate RecordsShown(setup: Setup, zone: map<string, Log>, i: nat, spki: Bytes)
    requires i < |setup.certificates|
  {
    var c := setup.certificates[i];
    forall j: nat, name :: IsPrePublishedSite(c, j, name) ==>
      FromSpki(setup.hash, spki, c.dane[j]) in Current(LogOf(zone, name))
  }

  /** A pending entry tells the truth: its file holds a key whose records have been present
      at every pre-published name since no later than `published_at`, and the stored waiting
      time covers every such block. */
  ghost predicate EntryOk(setup: Setup, d: Durable, i: nat, p: PendingRotation)
    requires i < |setup.certificates|
  {
    var c := setup.certificates[i];
    && p.keyPath == PendingPath(c.name) && p.keyPath in d.pendingKeys
    && p.publishedAt <= d.now
    && (forall j: nat :: j < |c.dane| && c.dane[j].PrePublished() ==> c.dane[j].ttl <= p.oldTtl)
    && HeldSince(setup, d.zone, i, d.pendingKeys[p.keyPath].spki, p.publishedAt)
  }

  /** What is durable about certificate `i`: the only thing that can be relied on after a crash. */
  ghost predicate DiskInv(setup: Setup, d: Durable, i: nat)
    requires i < |setup.certificates|
  {
    var c := setup.certificates[i];
    && (c.certPath in d.certs ==> HeldForTtl(setup, d.zone, i, d.certs[c.certPath].spki, d.now))
    && (c.name in d.stateFile ==> EntryOk(setup, d, i, d.stateFile[c.name]))
  }

  /** If an entry is still on disk, its key file holds this key. */
  predicate DiskEntryHolds(setup: Setup, d: Durable, i: nat, spki: Bytes)
    requires i < |setup.certificates|
  {
    var c := setup.certificates[i];
    c.name in d.stateFile ==>
      && PendingPath(c.name) in d.pendingKeys && d.pendingKeys[PendingPath(c.name)].spki == spki
  }

  ghost predicate StageInv(setup: Setup, d: Durable, stage: Stage, i: nat)
    requires i < |setup.certificates|
  {
    var c := setup.certificates[i];
    match stage
    case Free => true
    case Publishing(k, key, added) =>
      k == i ==>
        && c.name !in d.stateFile
        && PendingPath(c.name) in d.pendingKeys && d.pendingKeys[PendingPath(c.name)] == key
        && forall j: nat, name :: (j, name) in added && IsPrePublishedSite(c, j, name) ==>
             PresentSince(LogOf(d.zone, name), FromSpki(setup.hash, key.spki, c.dane[j]), d.now)
    case Issuing(k, key) =>
      k == i ==>
        && (Rotating(setup, i) ==> HeldForTtl(setup, d.zone, i, key.spki, d.now))
        && DiskEntryHolds(setup, d, i, key.spki)
    case Installed(k, key, leaf) =>
      k == i ==>
        && c.certPath in d.certs && d.certs[c.certPath] == leaf && leaf.spki == key.spki
        && DiskEntryHolds(setup, d, i, key.spki)
  }

  ghost predicate CertInv(setup: Setup, s: Sys, i: nat)
    requires i < |setup.certificates|
  {
    var c := setup.certificates[i];
    && DiskInv(setup, s.disk, i)
    && (s.process.Up? ==>
          && (c.name in s.process.pending ==> EntryOk(setup, s.disk, i, s.process.pending[c.name]))
          && (i !in s.process.visited ==>
                (c.name in s.process.pending <==> c.name in s.disk.stateFile)
                && (c.name in s.process.pending ==> s.process.pending[c.name] == s.disk.stateFile[c.name]))
          && (!s.process.stage.Free? ==>
                && s.process.stage.i in s.process.visited
                && (s.process.stage.i == i ==> c.name !in s.process.pending))
          && StageInv(setup, s.disk, s.process.stage, i))
  }

  predicate LogsOrdered(d: Durable) {
    forall n :: n in d.zone ==> Ordered(d.zone[n], d.now)
  }

  ghost predicate Inv(setup: Setup, s: Sys, i: nat) {
    LogsOrdered(s.disk) && (Covered(setup, i) ==> CertInv(setup, s, i))
  }

  /** A state the program may be first started in, as far as certificate `i` goes: nothing runs, and
      what is on disk about it is true. */
  ghost predicate GoodStart(setup: Setup, s: Sys, i: nat) {
    s.process.Down? && LogsOrdered(s.disk) && (Covered(setup, i) ==> DiskInv(setup, s.disk, i))
  }

  /** A machine on which nothing has been issued or published yet is a good start. */
  lemma FreshInstallIsGood(setup: Setup, now: Instant, i: nat)
    ensures GoodStart(setup, Sys(Durable(now, map[], map[], map[], map[], map[]), Down), i)
  {
  }

  // ----- Small facts about logs -----

  lemma {:induction false} MaxTtlCovers(blocks: seq<Dane>, j: nat)
    requires j < |blocks| && blocks[j].PrePublished()
    ensures blocks[j].ttl <= MaxTtl(blocks)
  {
    if j < |blocks| - 1 {
      MaxTtlCovers(blocks[..|blocks| - 1], j);
    }
  }

  /** It is in fact the largest of their TTLs: of all blocks that are published early for their public
      key, and of no others. */
  ghost predicate LongestWait(blocks: seq<Dane>, wait: nat) {
    && (forall j :: 0 <= j < |blocks| && blocks[j].prePublish && blocks[j].selector == DaneSelector.Spki ==>
          blocks[j].ttl <= wait)
    && (wait == 0 || exists j :: 0 <= j < |blocks| && blocks[j].prePublish && blocks[j].selector == DaneSelector.Spki
                                 && blocks[j].ttl == wait)
  }

  lemma {:induction false} MaxTtlIsLongestWait(blocks: seq<Dane>)
    ensures LongestWait(blocks, MaxTtl(blocks))
  {
    if blocks != [] {
      var n := |blocks| - 1;
      MaxTtlIsLongestWait(blocks[..n]);
      assert forall j :: 0 <= j < n ==> blocks[..n][j] == blocks[j];
    }
  }

  /** The RRset holds the records of the key for every pre-published block named `at`. */
  ghost predicate HoldsAt(setup: Setup, i: nat, spki: Bytes, at: string, rrset: set<Record>)
    requires i < |setup.certificates|
  {
    var c := setup.certificates[i];
    forall j: nat, name :: IsPrePublishedSite(c, j, name) && Names.Canonical(name) == Names.Canonical(at)
      ==> FromSpki(setup.hash, spki, c.dane[j]) in rrset
  }

  /** A new version keeps a key's records present if it holds them wherever it applies. */
  lemma PushKeepsHeld(setup: Setup, zone: map<string, Log>, i: nat, spki: Bytes, since: Instant, at: string, v: Version)
    requires i < |setup.certificates| && HeldSince(setup, zone, i, spki, since)
    requires HoldsAt(setup, i, spki, at, v.rrset)
    ensures HeldSince(setup, Push(zone, at, v), i, spki, since)
  {
  }

  lemma PushKeepsHeldForTtl(setup: Setup, zone: map<string, Log>, i: nat, spki: Bytes, now: Instant, at: string,
                            v: Version)
    requires i < |setup.certificates| && HeldForTtl(setup, zone, i, spki, now)
    requires HoldsAt(setup, i, spki, at, v.rrset)
    ensures HeldForTtl(setup, Push(zone, at, v), i, spki, now)
  {
  }

  /** The heart of the waiting rule: an entry whose TTL has passed has been visible for the
      TTL of every block it covers. */
  lemma ExpiredEntryIsHeld(setup: Setup, d: Durable, i: nat, p: PendingRotation)
    requires i < |setup.certificates| && EntryOk(setup, d, i, p) && TtlExpired(p.publishedAt, p.oldTtl, d.now)
    ensures HeldForTtl(setup, d.zone, i, d.pendingKeys[p.keyPath].spki, d.now)
  {
  }

  // ----- One step keeps the invariant -----

  lemma TickKeeps(setup: Setup, s: Sys, dt: nat, i: nat)
    requires Inv(setup, s, i) && Covered(setup, i)
    ensures CertInv(setup, Next(setup, s, Tick(dt)), i)
  {
  }

  /** Adding to an RRset loses nothing that was there. */
  lemma AddHoldsAt(setup: Setup, zone: map<string, Log>, i: nat, spki: Bytes, since: Instant, at: string, r: Record)
    requires i < |setup.certificates| && HeldSince(setup, zone, i, spki, since)
    ensures HoldsAt(setup, i, spki, at, Current(LogOf(zone, at)) + {r})
  {
  }

  lemma AddHoldsAtForTtl(setup: Setup, zone: map<string, Log>, i: nat, spki: Bytes, now: Instant, at: string, r: Record)
    requires i < |setup.certificates| && HeldForTtl(setup, zone, i, spki, now)
    ensures HoldsAt(setup, i, spki, at, Current(LogOf(zone, at)) + {r})
  {
  }

  /** Replacing the RRset of one site by the record of a certificate affects no other site,
      and leaves the record of the certificate's own key there. */
  lemma ReplaceHoldsAt(setup: Setup, k: nat, j: nat, at: string, leaf: Leaf, i: nat, spki: Bytes)
    requires Separate(setup) && k < |setup.certificates| && i < |setup.certificates|
    requires IsSite(setup.certificates[k], j, at)
    requires i == k ==> spki == leaf.spki
    ensures HoldsAt(setup, i, spki, at, {FromCertificate(setup.hash, leaf, setup.certificates[k].dane[j])})
  {
  }

  lemma PushKeepsEntry(setup: Setup, d: Durable, i: nat, p: PendingRotation, at: string, rrset: set<Record>)
    requires i < |setup.certificates| && EntryOk(setup, d, i, p)
    requires HoldsAt(setup, i, d.pendingKeys[p.keyPath].spki, at, rrset)
    ensures EntryOk(setup, d.(zone := Push(d.zone, at, Version(d.now, rrset))), i, p)
  {
    PushKeepsHeld(setup, d.zone, i, d.pendingKeys[p.keyPath].spki, p.publishedAt, at, Version(d.now, rrset));
  }

  lemma AddRecordKeeps(setup: Setup, s: Sys, e: Event, i: nat)
    requires Inv(setup, s, i) && Covered(setup, i) && e.AddRecord? && Enabled(setup, s, e)
    ensures CertInv(setup, Next(setup, s, e), i)
  {
    var c, d, st := setup.certificates[i], s.disk, s.process.stage;
    var r := FromSpki(setup.hash, st.key.spki, setup.certificates[st.i].dane[e.j]);
    var v := Version(d.now, Current(LogOf(d.zone, e.name)) + {r});
    assert CertInv(setup, s, i);
    if c.certPath in d.certs {
      var spki := d.certs[c.certPath].spki;
      AddHoldsAtForTtl(setup, d.zone, i, spki, d.now, e.name, r);
      PushKeepsHeldForTtl(setup, d.zone, i, spki, d.now, e.name, v);
    }
    if c.name in d.stateFile {
      var p := d.stateFile[c.name];
      AddHoldsAt(setup, d.zone, i, d.pendingKeys[p.keyPath].spki, p.publishedAt, e.name, r);
      PushKeepsEntry(setup, d, i, p, e.name, v.rrset);
    }
    if c.name in s.process.pending {
      var p := s.process.pending[c.name];
      AddHoldsAt(setup, d.zone, i, d.pendingKeys[p.keyPath].spki, p.publishedAt, e.name, r);
      PushKeepsEntry(setup, d, i, p, e.name, v.rrset);
    }
    if st.i == i {
      AddedStayPresent(setup, d, st, e, i);
    }
  }

  lemma AddedStayPresent(setup: Setup, d: Durable, st: Stage, e: Event, i: nat)
    requires i < |setup.certificates| && st.Publishing? && st.i == i && e.AddRecord?
    requires IsPrePublishedSite(setup.certificates[i], e.j, e.name) && StageInv(setup, d, st, i)
    ensures
      var c := setup.certificates[i];
      var r := FromSpki(setup.hash, st.key.spki, c.dane[e.j]);
      var v := Version(d.now, Current(LogOf(d.zone, e.name)) + {r});
      forall j: nat, name :: (j, name) in st.added + {(e.j, e.name)} && IsPrePublishedSite(c, j, name) ==>
        PresentSince(LogOf(Push(d.zone, e.name, v), name), FromSpki(setup.hash, st.key.spki, c.dane[j]), d.now)
  {
    var c := setup.certificates[i];
    var r := FromSpki(setup.hash, st.key.spki, c.dane[e.j]);
    var v := Version(d.now, Current(LogOf(d.zone, e.name)) + {r});
    forall j: nat, name | (j, name) in st.added + {(e.j, e.name)} && IsPrePublishedSite(c, j, name)
      ensures PresentSince(LogOf(Push(d.zone, e.name, v), name), FromSpki(setup.hash, st.key.spki, c.dane[j]), d.now)
    {
      var rj := FromSpki(setup.hash, st.key.spki, c.dane[j]);
      if (j, name) == (e.j, e.name) {
        PresentFromNow(LogOf(d.zone, name), rj, v);
      } else if Names.Canonical(name) == Names.Canonical(e.name) {
        PresentIsCurrent(LogOf(d.zone, name), rj, d.now);
        PresentAppend(LogOf(d.zone, name), rj, d.now, v);
      }
    }
  }

  /** `dane-publish` must keep out while a rotation of the certificate is saved; the program
      does not check this, so it is a duty of the operator. See `PublishWhilePending`. */
  predicate MayReplace(setup: Setup, s: Sys, i: nat) {
    s.process.Down? && Covered(setup, i) ==> setup.certificates[i].name !in s.disk.stateFile
  }

  predicate PublishApart(setup: Setup, s: Sys, e: Event, i: nat) {
    e.ReplaceRecords? && e.i == i ==> MayReplace(setup, s, i)
  }

  /** A key may be installed for certificate `i` now: always, unless the certificate is to keep
      its key; then the key's records must have been there for a TTL already. */
  ghost predicate MayInstall(setup: Setup, d: Durable, i: nat, spki: Bytes) {
    KeepsKey(setup, i) ==> HeldForTtl(setup, d.zone, i, spki, d.now)
  }

  /** What has been held for a TTL stays so while only time passes. */
  lemma HeldLonger(setup: Setup, d: Durable, e: Durable, i: nat, spki: Bytes)
    requires d.zone == e.zone && d.now <= e.now && MayInstall(setup, d, i, spki)
    ensures MayInstall(setup, e, i, spki)
  {
  }

  /** A certificate that is to keep its key must not get another one unannounced. The program
      falls back on a fresh key whenever the stored one does not load (src/renew.rs:388-400),
      so this depends on the key file. See `InstallKeepsExactly`. */
  ghost predicate InstallHeld(setup: Setup, s: Sys, e: Event, i: nat) {
    e.InstallCertificate? && s.process.Up? && s.process.stage.Issuing? && s.process.stage.i == i ==>
      MayInstall(setup, s.disk, i, e.leaf.spki)
  }

  /** A step is careful about certificate `i`. Steps for other certificates always are, and those of
      a renewal are unless the certificate is to keep its key. */
  ghost predicate Careful(setup: Setup, s: Sys, e: Event, i: nat) {
    PublishApart(setup, s, e, i) && InstallHeld(setup, s, e, i)
  }

  lemma ReplaceRecordsKeeps(setup: Setup, s: Sys, e: Event, i: nat)
    requires Separate(setup) && Inv(setup, s, i) && Covered(setup, i) && e.ReplaceRecords? && Enabled(setup, s, e)
    requires Careful(setup, s, e, i)
    ensures CertInv(setup, Next(setup, s, e), i)
  {
    var c, d := setup.certificates[i], s.disk;
    var rrset := {FromCertificate(setup.hash, e.leaf, setup.certificates[e.i].dane[e.j])};
    assert CertInv(setup, s, i);
    if c.certPath in d.certs {
      var spki := d.certs[c.certPath].spki;
      ReplaceHoldsAt(setup, e.i, e.j, e.name, e.leaf, i, spki);
      PushKeepsHeldForTtl(setup, d.zone, i, spki, d.now, e.name, Version(d.now, rrset));
    }
    if c.name in d.stateFile {
      var p := d.stateFile[c.name];
      ReplaceHoldsAt(setup, e.i, e.j, e.name, e.leaf, i, d.pendingKeys[p.keyPath].spki);
      PushKeepsEntry(setup, d, i, p, e.name, rrset);
    }
    if s.process.Up? && c.name in s.process.pending {
      var p := s.process.pending[c.name];
      ReplaceHoldsAt(setup, e.i, e.j, e.name, e.leaf, i, d.pendingKeys[p.keyPath].spki);
      PushKeepsEntry(setup, d, i, p, e.name, rrset);
    }
  }

  lemma PathsDiffer(m: string, n: string)
    requires m != n
    ensures PendingPath(m) != PendingPath(n)
  {
    assert PendingPath(m)[|"pending/"|..][..|m|] == m;
    assert PendingPath(n)[|"pending/"|..][..|n|] == n;
  }

  /** Writing a fresh key file touches no certificate with an entry: its own has none, in
      memory or on disk, and the others have other files. */
  lemma WritePendingKeyKeeps(setup: Setup, s: Sys, e: Event, i: nat)
    requires Separate(setup) && Inv(setup, s, i) && Covered(setup, i) && e.WritePendingKey? && Enabled(setup, s, e)
    ensures CertInv(setup, Next(setup, s, e), i)
  {
    assert CertInv(setup, s, i);
    if e.i != i {
      PathsDiffer(setup.certificates[e.i].name, setup.certificates[i].name);
    }
  }

  lemma RecordPendingKeeps(setup: Setup, s: Sys, i: nat)
    requires Separate(setup) && Inv(setup, s, i) && Covered(setup, i) && Enabled(setup, s, RecordPending)
    ensures CertInv(setup, Next(setup, s, RecordPending), i)
  {
    var c, d, st := setup.certificates[i], s.disk, s.process.stage;
    assert CertInv(setup, s, i);
    if st.i == i {
      forall j: nat | j < |c.dane| && c.dane[j].PrePublished() ensures c.dane[j].ttl <= MaxTtl(c.dane) {
        MaxTtlCovers(c.dane, j);
      }
      assert EntryOk(setup, d, i, PendingRotation(PendingPath(c.name), d.now, MaxTtl(c.dane)));
    }
  }

  lemma TakePendingKeeps(setup: Setup, s: Sys, e: Event, i: nat)
    requires Separate(setup) && Inv(setup, s, i) && Covered(setup, i) && Enabled(setup, s, e)
    requires e.TakePending? || e.LosePending?
    ensures CertInv(setup, Next(setup, s, e), i)
  {
  }

  lemma InstallKeeps(setup: Setup, s: Sys, e: Event, i: nat)
    requires Separate(setup) && Inv(setup, s, i) && Covered(setup, i) && e.InstallCertificate? && Enabled(setup, s, e)
    requires InstallHeld(setup, s, e, i)
    ensures CertInv(setup, Next(setup, s, e), i)
  {
  }

  lemma MemoryStepKeeps(setup: Setup, s: Sys, e: Event, i: nat)
    requires Separate(setup) && Inv(setup, s, i) && Covered(setup, i) && Enabled(setup, s, e)
    requires e.StartRun? || e.EndRun? || e.SaveState? || e.UseKey? || e.SaveKey? || e.Leave?
    ensures CertInv(setup, Next(setup, s, e), i)
  {
  }

  lemma StepKeepsCertificate(setup: Setup, s: Sys, e: Event, i: nat)
    requires Separate(setup) && Inv(setup, s, i) && Covered(setup, i) && Enabled(setup, s, e) && Careful(setup, s, e, i)
    ensures CertInv(setup, Next(setup, s, e), i)
  {
    match e
    case Tick(dt) => TickKeeps(setup, s, dt, i);
    case AddRecord(_, _, _) => AddRecordKeeps(setup, s, e, i);
    case ReplaceRecords(_, _, _, _) => ReplaceRecordsKeeps(setup, s, e, i);
    case WritePendingKey(_, _) => WritePendingKeyKeeps(setup, s, e, i);
    case RecordPending => RecordPendingKeeps(setup, s, i);
    case TakePending(_) => TakePendingKeeps(setup, s, e, i);
    case LosePending(_) => TakePendingKeeps(setup, s, e, i);
    case InstallCertificate(_) => InstallKeeps(setup, s, e, i);
    case _ => MemoryStepKeeps(setup, s, e, i);
  }

  lemma StepKeepsOrder(setup: Setup, s: Sys, e: Event)
    requires LogsOrdered(s.disk) && Enabled(setup, s, e)
    ensures LogsOrdered(Next(setup, s, e).disk)
  {
  }

  lemma StepKeeps(setup: Setup, s: Sys, e: Event, i: nat)
    requires Separate(setup) && Inv(setup, s, i) && Enabled(setup, s, e) && Careful(setup, s, e, i)
    ensures Inv(setup, Next(setup, s, e), i)
  {
    StepKeepsOrder(setup, s, e);
    if Covered(setup, i) {
      StepKeepsCertificate(setup, s, e, i);
    }
  }

  // ----- Every run -----

  /** Every step of a run was careful about certificate `i`. */
  ghost predicate CarefulRun(setup: Setup, start: Sys, events: seq<Event>, i: nat) {
    events == [] ||
      (var init := events[..|events| - 1];
       && CarefulRun(setup, start, init, i)
       && (Exec(setup, start, init).Some? ==> Careful(setup, Exec(setup, start, init).value, events[|events| - 1], i)))
  }

  /** Reached by a run in which every step was careful about certificate `i`: no `dane-publish` for
      it while its rotation was pending, and, if it is to keep its key, no installation of a key
      whose records were not there. */
  ghost predicate Reached(setup: Setup, start: Sys, s: Sys, i: nat) {
    exists events :: Exec(setup, start, events) == Some(s) && CarefulRun(setup, start, events, i)
  }

  /** The first of the two conditions alone. */
  ghost predicate PublishesApart(setup: Setup, start: Sys, events: seq<Event>, i: nat) {
    events == [] ||
      (var init := events[..|events| - 1];
       && PublishesApart(setup, start, init, i)
       && (Exec(setup, start, init).Some? ==>
             PublishApart(setup, Exec(setup, start, init).value, events[|events| - 1], i)))
  }

  /** The certificates about which the operator's duties were met so far: the promise holds of them. */
  ghost function Guarded(setup: Setup, start: Sys, events: seq<Event>): set<nat> {
    set i: nat | i < |setup.certificates|
                 && Separate(setup) && GoodStart(setup, start, i) && CarefulRun(setup, start, events, i)
  }

  /** Those for which no `dane-publish` came in between. */
  ghost function KeptApart(setup: Setup, start: Sys, events: seq<Event>): set<nat> {
    set i: nat | i < |setup.certificates| && PublishesApart(setup, start, events, i)
  }

  lemma {:induction false} RunKeeps(setup: Setup, start: Sys, events: seq<Event>, i: nat)
    requires Separate(setup) && GoodStart(setup, start, i) && Exec(setup, start, events).Some?
    requires CarefulRun(setup, start, events, i)
    ensures Inv(setup, Exec(setup, start, events).value, i)
  {
    if events != [] {
      var init := events[..|events| - 1];
      RunKeeps(setup, start, init, i);
      StepKeeps(setup, Exec(setup, start, init).value, events[|events| - 1], i);
    }
  }

  lemma InvValidates(setup: Setup, s: Sys, i: nat)
    requires Inv(setup, s, i)
    ensures ClientsValidate(setup, s, i)
  {
    forall j: nat, name, answer |
        i < |setup.certificates| && IsPrePublishedSite(setup.certificates[i], j, name)
        && setup.certificates[i].certPath in s.disk.certs
        && Usable(LogOf(s.disk.zone, name), s.disk.now, setup.certificates[i].dane[j].ttl * NANOS, answer)
      ensures FromCertificate(setup.hash, s.disk.certs[setup.certificates[i].certPath], setup.certificates[i].dane[j])
                in answer
    {
      assert CertInv(setup, s, i);
    }
  }

  /** DANE continuity, for every pre-published block of a certificate. From a good start, in every
      state that any interleaving of renew runs, failures, crashes, `dane-publish` and the passage
      of time can reach, no client can hold an answer that lacks the installed certificate's
      record; and its entry on disk is true. Nothing is assumed about `force` (no step asks for it),
      about the add's prerequisite, or about what is done for other certificates. The run has to be
      careful about this one; of a certificate that rotates, that says only that no `dane-publish`
      was started for it while its rotation was pending. */
  lemma DaneContinuity(setup: Setup, start: Sys, s: Sys, i: nat)
    requires Separate(setup) && GoodStart(setup, start, i) && Reached(setup, start, s, i)
    ensures ClientsValidate(setup, s, i)
    ensures Covered(setup, i) ==> DiskInv(setup, s.disk, i)
  {
    var events :| Exec(setup, start, events) == Some(s) && CarefulRun(setup, start, events, i);
    RunKeeps(setup, start, events, i);
    InvValidates(setup, s, i);
  }

  /** Step `n` was a `dane-publish` for certificate `i` while its rotation was pending. */
  ghost predicate PublishedInto(setup: Setup, start: Sys, events: seq<Event>, n: int, i: nat)
    requires 0 <= n < |events| && i < |setup.certificates|
  {
    && events[n].ReplaceRecords? && events[n].i == i
    && var before := Exec(setup, start, events[..n]);
       && before.Some? && before.value.process.Down?
       && setup.certificates[i].name in before.value.disk.stateFile
  }

  /** A stop is as good as a first start: wherever a run has been careful and nothing runs any more,
      what is on disk is true again. */
  lemma StopsAreGoodStarts(setup: Setup, start: Sys, s: Sys, i: nat)
    requires Separate(setup) && GoodStart(setup, start, i) && Reached(setup, start, s, i) && s.process.Down?
    ensures GoodStart(setup, s, i)
  {
    var events :| Exec(setup, start, events) == Some(s) && CarefulRun(setup, start, events, i);
    RunKeeps(setup, start, events, i);
  }

  /** For a rotating certificate this is all that carefulness asks: a run is careful about it exactly
      when no `dane-publish` in it was for that certificate while its rotation was pending. */
  lemma {:induction false} RotatingRunIsCareful(setup: Setup, start: Sys, events: seq<Event>, i: nat)
    requires Rotating(setup, i) && Exec(setup, start, events).Some?
    ensures CarefulRun(setup, start, events, i)
            <==> forall n :: 0 <= n < |events| ==> !PublishedInto(setup, start, events, n, i)
  {
    hide Enabled, Next;
    if events != [] {
      var init := events[..|events| - 1];
      RotatingRunIsCareful(setup, start, init, i);
      forall n | 0 <= n < |init|
        ensures PublishedInto(setup, start, events, n, i) <==> PublishedInto(setup, start, init, n, i)
      {
        assert init[..n] == events[..n];
      }
      assert Careful(setup, Exec(setup, start, init).value, events[|init|], i)
             <==> !PublishedInto(setup, start, events, |init|, i);
    }
  }

  /** While an entry for a certificate is on disk, no step generates a key for it, and no step
      at all changes the file its key is in. */
  lemma NoFreshKeyWhilePending(setup: Setup, start: Sys, s: Sys, i: nat, e: Event)
    requires Separate(setup) && GoodStart(setup, start, i) && Reached(setup, start, s, i) && Enabled(setup, s, e)
    requires Covered(setup, i) && setup.certificates[i].name in s.disk.stateFile
    ensures !(e.WritePendingKey? && e.i == i)
    ensures var path := s.disk.stateFile[setup.certificates[i].name].keyPath;
            && path in s.disk.pendingKeys && path in Next(setup, s, e).disk.pendingKeys
            && Next(setup, s, e).disk.pendingKeys[path] == s.disk.pendingKeys[path]
  {
    var events :| Exec(setup, start, events) == Some(s) && CarefulRun(setup, start, events, i);
    RunKeeps(setup, start, events, i);
    assert CertInv(setup, s, i);
    if e.WritePendingKey? && e.i != i {
      PathsDiffer(setup.certificates[e.i].name, setup.certificates[i].name);
    }
  }

  /** What the RRset holds just before completion replaces it. */
  lemma PrePublishedIsThere(setup: Setup, s: Sys, i: nat, j: nat, name: string)
    requires Inv(setup, s, i) && Covered(setup, i) && IsPrePublishedSite(setup.certificates[i], j, name)
    requires s.process.Up? && s.process.stage.Installed? && s.process.stage.i == i
    ensures s.process.stage.leaf.spki == s.process.stage.key.spki
    ensures FromSpki(setup.hash, s.process.stage.key.spki, setup.certificates[i].dane[j])
              in Current(LogOf(s.disk.zone, name))
  {
  }

  /** Completion introduces nothing new: replacing the RRset at a pre-published name leaves
      exactly the record that was pre-published there, in one version, so clients go from
      {old, new} to {new} and never see an empty RRset. */
  lemma CompletionShrinks(setup: Setup, start: Sys, s: Sys, e: Event)
    requires e.ReplaceRecords?
    requires Separate(setup) && GoodStart(setup, start, e.i) && Reached(setup, start, s, e.i)
    requires s.process.Up? && Enabled(setup, s, e)
    requires Covered(setup, e.i) && setup.certificates[e.i].dane[e.j].PrePublished()
    ensures
      var before := LogOf(s.disk.zone, e.name);
      var after := LogOf(Next(setup, s, e).disk.zone, e.name);
      var r := FromSpki(setup.hash, s.process.stage.key.spki, setup.certificates[e.i].dane[e.j]);
      && |after| == |before| + 1 && after[..|before|] == before
      && Current(after) == {r} && r in Current(before)
  {
    var events :| Exec(setup, start, events) == Some(s) && CarefulRun(setup, start, events, e.i);
    RunKeeps(setup, start, events, e.i);
    PrePublishedIsThere(setup, s, e.i, e.j, e.name);
    KeyRecordIsCertificateRecord(setup.hash, e.leaf, setup.certificates[e.i].dane[e.j]);
    hide Inv, Separate, GoodStart, Exec;
    assert LogOf(Next(setup, s, e).disk.zone, e.name)[..|LogOf(s.disk.zone, e.name)|] == LogOf(s.disk.zone, e.name);
  }

  /** Why `dane-publish` must stay out while a rotation waits: publishing the installed
      certificate's record at a pre-published name keeps the entry true exactly when the
      pending key has that same record. */
  lemma PublishWhilePending(setup: Setup, d: Durable, i: nat, j: nat, name: string)
    requires Separate(setup) && Covered(setup, i) && IsPrePublishedSite(setup.certificates[i], j, name)
    requires setup.certificates[i].certPath in d.certs && setup.certificates[i].name in d.stateFile
    requires EntryOk(setup, d, i, d.stateFile[setup.certificates[i].name])
    ensures
      var c := setup.certificates[i];
      var p := d.stateFile[c.name];
      var r := FromCertificate(setup.hash, d.certs[c.certPath], c.dane[j]);
      var after := d.(zone := Push(d.zone, name, Version(d.now, {r})));
      EntryOk(setup, after, i, p) <==> r == FromSpki(setup.hash, d.pendingKeys[p.keyPath].spki, c.dane[j])
  {
    var c := setup.certificates[i];
    var p := d.stateFile[c.name];
    var spki := d.pendingKeys[p.keyPath].spki;
    var r := FromCertificate(setup.hash, d.certs[c.certPath], c.dane[j]);
    var after := d.(zone := Push(d.zone, name, Version(d.now, {r})));
    if EntryOk(setup, after, i, p) {
      PresentIsCurrent(LogOf(after.zone, name), FromSpki(setup.hash, spki, c.dane[j]), p.publishedAt);
    }
    if r == FromSpki(setup.hash, spki, c.dane[j]) {
      assert HoldsAt(setup, i, spki, name, {r});
      PushKeepsEntry(setup, d, i, p, name, {r});
    }
  }

  /** The steps of a run that finishes a rotation, up to the new certificate file. */
  lemma RotationInstalls(setup: Setup, s: Sys, i: nat, leaf: Leaf)
    requires s.process.Down? && i < |setup.certificates| && setup.certificates[i].name in s.disk.stateFile
    requires var p := s.disk.stateFile[setup.certificates[i].name];
             && TtlExpired(p.publishedAt, p.oldTtl, s.disk.now) && p.keyPath in s.disk.pendingKeys
             && leaf.spki == s.disk.pendingKeys[p.keyPath].spki
    ensures var r := Exec(setup, s, [StartRun, TakePending(i), InstallCertificate(leaf)]);
            && r.Some? && r.value.process.Up?
            && r.value.disk == s.disk.(certs := s.disk.certs[setup.certificates[i].certPath := leaf])
  {
    var run := [StartRun, TakePending(i), InstallCertificate(leaf)];
    assert run[..1] == [] + [StartRun] && run[..2] == run[..1] + [TakePending(i)];
    assert run == run[..2] + [InstallCertificate(leaf)];
    ExecAppend(setup, s, [], StartRun);
    ExecAppend(setup, s, run[..1], TakePending(i));
    ExecAppend(setup, s, run[..2], InstallCertificate(leaf));
  }

  lemma PublishAndWait(setup: Setup, s: Sys, i: nat, j: nat, name: string, dt: nat)
    requires s.process.Down? && i < |setup.certificates| && IsSite(setup.certificates[i], j, name)
    requires setup.certificates[i].certPath in s.disk.certs
    ensures var leaf := s.disk.certs[setup.certificates[i].certPath];
            var r := FromCertificate(setup.hash, leaf, setup.certificates[i].dane[j]);
            Exec(setup, s, [ReplaceRecords(i, j, name, leaf), Tick(dt)]) ==
              Some(s.(disk := s.disk.(now := s.disk.now + dt,
                                      zone := Push(s.disk.zone, name, Version(s.disk.now, {r})))))
  {
    var e := ReplaceRecords(i, j, name, s.disk.certs[setup.certificates[i].certPath]);
    assert [e, Tick(dt)][..1] == [] + [e] && [e, Tick(dt)] == [e] + [Tick(dt)];
    ExecAppend(setup, s, [], e);
    ExecAppend(setup, s, [e], Tick(dt));
  }

  lemma MissingRecordBreaks(setup: Setup, s: Sys, i: nat, j: nat, name: string)
    requires i < |setup.certificates| && IsPrePublishedSite(setup.certificates[i], j, name)
    requires setup.certificates[i].certPath in s.disk.certs
    requires FromCertificate(setup.hash, s.disk.certs[setup.certificates[i].certPath], setup.certificates[i].dane[j])
               !in Current(LogOf(s.disk.zone, name))
    ensures !ClientsValidate(setup, s, i)
  {
    assert Usable(LogOf(s.disk.zone, name), s.disk.now, setup.certificates[i].dane[j].ttl * NANOS,
                  Current(LogOf(s.disk.zone, name)));
  }

  /** And then clients break: with other records for the pending key, the rotation completes after
      its waiting time as if nothing had happened, and the served RRset is then without the new
      certificate's record. */
  lemma PublishWhilePendingBreaks(setup: Setup, s: Sys, i: nat, j: nat, name: string, leaf: Leaf)
    requires Separate(setup) && Covered(setup, i) && IsPrePublishedSite(setup.certificates[i], j, name)
    requires setup.certificates[i].certPath in s.disk.certs && setup.certificates[i].name in s.disk.stateFile
    requires s.process.Down? && EntryOk(setup, s.disk, i, s.disk.stateFile[setup.certificates[i].name])
    requires var c, p := setup.certificates[i], s.disk.stateFile[setup.certificates[i].name];
             && leaf.spki == s.disk.pendingKeys[p.keyPath].spki
             && FromCertificate(setup.hash, s.disk.certs[c.certPath], c.dane[j])
                != FromSpki(setup.hash, leaf.spki, c.dane[j])
    ensures var c, p := setup.certificates[i], s.disk.stateFile[setup.certificates[i].name];
            var publish := [ReplaceRecords(i, j, name, s.disk.certs[c.certPath]), Tick(p.oldTtl * NANOS)];
            var finish := [StartRun, TakePending(i), InstallCertificate(leaf)];
            && Exec(setup, s, publish + finish).Some?
            && !ClientsValidate(setup, Exec(setup, s, publish + finish).value, i)
  {
    var c, p := setup.certificates[i], s.disk.stateFile[setup.certificates[i].name];
    var publish := [ReplaceRecords(i, j, name, s.disk.certs[c.certPath]), Tick(p.oldTtl * NANOS)];
    var finish := [StartRun, TakePending(i), InstallCertificate(leaf)];
    TtlExpiredExactly(p.publishedAt, p.oldTtl, s.disk.now + p.oldTtl * NANOS);
    PublishAndWait(setup, s, i, j, name, p.oldTtl * NANOS);
    var t := Exec(setup, s, publish).value;
    RotationInstalls(setup, t, i, leaf);
    ExecConcat(setup, s, publish, finish);
    KeyRecordIsCertificateRecord(setup.hash, leaf, c.dane[j]);
    hide Exec, ClientsValidate;
    MissingRecordBreaks(setup, Exec(setup, t, finish).value, i, j, name);
  }
}
