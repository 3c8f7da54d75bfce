/** Pre-published blocks of certificates that are to keep their key (`rotate_key = false`). The
    program then publishes nothing before it issues: it reuses the stored key, and falls back on
    a fresh one whenever that key does not load (src/renew.rs:387-401). */
module KeptKeys {
  import opened Prelude
  import opened Expiry
  import opened History
  import opened Tlsa
  import opened Protocol
  import opened Safety

  /** Two keys have the same record for every pre-published block that names a host. */
  predicate SameRecords(setup: Setup, i: nat, a: Bytes, b: Bytes)
    requires i < |setup.certificates|
  {
    var c := setup.certificates[i];
    forall j :: 0 <= j < |c.dane| && c.dane[j].PrePublished() && c.dane[j].names != [] ==>
      FromSpki(setup.hash, a, c.dane[j]) == FromSpki(setup.hash, b, c.dane[j])
  }

  /** The installed certificate's records are published and nothing else is, as after a
      publication that succeeded. */
  ghost predicate Settled(setup: Setup, d: Durable, i: nat)
    requires i < |setup.certificates|
  {
    var c := setup.certificates[i];
    && c.certPath in d.certs
    && forall j: nat, name :: IsPrePublishedSite(c, j, name) ==>
         Current(LogOf(d.zone, name)) == {FromSpki(setup.hash, d.certs[c.certPath].spki, c.dane[j])}
  }

  lemma SameRecordsHeld(setup: Setup, d: Durable, i: nat, a: Bytes, b: Bytes)
    requires i < |setup.certificates| && SameRecords(setup, i, a, b) && HeldForTtl(setup, d.zone, i, a, d.now)
    ensures HeldForTtl(setup, d.zone, i, b, d.now)
  {
    var c := setup.certificates[i];
    forall j: nat, name | IsPrePublishedSite(c, j, name)
      ensures FromSpki(setup.hash, a, c.dane[j]) == FromSpki(setup.hash, b, c.dane[j])
    {
      assert c.dane[j].names != [];
    }
  }

  lemma ValidatingIsHeld(setup: Setup, s: Sys, i: nat)
    requires LogsOrdered(s.disk) && ClientsValidate(setup, s, i)
    requires i < |setup.certificates| && setup.certificates[i].certPath in s.disk.certs
    ensures HeldForTtl(setup, s.disk.zone, i, s.disk.certs[setup.certificates[i].certPath].spki, s.disk.now)
  {
    var c := setup.certificates[i];
    var leaf := s.disk.certs[c.certPath];
    forall j: nat, name | IsPrePublishedSite(c, j, name)
      ensures PresentSince(LogOf(s.disk.zone, name), FromSpki(setup.hash, leaf.spki, c.dane[j]),
                           s.disk.now - c.dane[j].ttl * NANOS)
    {
      KeyRecordIsCertificateRecord(setup.hash, leaf, c.dane[j]);
      assert Ordered(LogOf(s.disk.zone, name), s.disk.now);
      UsableNeedsPresent(LogOf(s.disk.zone, name), FromSpki(setup.hash, leaf.spki, c.dane[j]), s.disk.now,
                         c.dane[j].ttl * NANOS);
    }
  }

  lemma SettledNeedsSame(setup: Setup, d: Durable, i: nat, spki: Bytes)
    requires i < |setup.certificates| && Settled(setup, d, i) && HeldForTtl(setup, d.zone, i, spki, d.now)
    ensures SameRecords(setup, i, d.certs[setup.certificates[i].certPath].spki, spki)
  {
    var c := setup.certificates[i];
    forall j | 0 <= j < |c.dane| && c.dane[j].PrePublished() && c.dane[j].names != []
      ensures FromSpki(setup.hash, d.certs[c.certPath].spki, c.dane[j]) == FromSpki(setup.hash, spki, c.dane[j])
    {
      var name := c.dane[j].names[0];
      assert IsPrePublishedSite(c, j, name);
      PresentIsCurrent(LogOf(d.zone, name), FromSpki(setup.hash, spki, c.dane[j]), d.now - c.dane[j].ttl * NANOS);
    }
  }

  /** Installing a certificate for a key keeps its clients validating if and only if that key's
      records have been held for a TTL; and where just the installed certificate's records are
      published, if and only if the key has those same records. */
  lemma InstallKeepsExactly(setup: Setup, s: Sys, e: Event, i: nat)
    requires Separate(setup) && Inv(setup, s, i) && e.InstallCertificate? && Enabled(setup, s, e)
    requires KeepsKey(setup, i) && s.process.stage.i == i
    ensures ClientsValidate(setup, Next(setup, s, e), i) <==> InstallHeld(setup, s, e, i)
    ensures Settled(setup, s.disk, i) ==>
              (ClientsValidate(setup, Next(setup, s, e), i)
               <==> SameRecords(setup, i, s.disk.certs[setup.certificates[i].certPath].spki, e.leaf.spki))
  {
    if InstallHeld(setup, s, e, i) {
      StepKeeps(setup, s, e, i);
      InvValidates(setup, Next(setup, s, e), i);
    }
    if ClientsValidate(setup, Next(setup, s, e), i) {
      ValidatingIsHeld(setup, Next(setup, s, e), i);
    }
    if Settled(setup, s.disk, i) {
      assert CertInv(setup, s, i);
      var spki := s.disk.certs[setup.certificates[i].certPath].spki;
      if SameRecords(setup, i, spki, e.leaf.spki) {
        SameRecordsHeld(setup, s.disk, i, spki, e.leaf.spki);
      }
      if InstallHeld(setup, s, e, i) {
        SettledNeedsSame(setup, s.disk, i, e.leaf.spki);
      }
    }
  }

  /** The same for whole runs, step by step. */
  ghost predicate InstallsHeld(setup: Setup, start: Sys, events: seq<Event>, i: nat) {
    events == [] ||
      (var init := events[..|events| - 1];
       && InstallsHeld(setup, start, init, i)
       && (Exec(setup, start, init).Some? ==>
             InstallHeld(setup, Exec(setup, start, init).value, events[|events| - 1], i)))
  }

  /** Clients of a certificate validate at the start and after every step. */
  ghost predicate ValidatesThroughout(setup: Setup, start: Sys, events: seq<Event>, i: nat) {
    && Exec(setup, start, events).Some? && ClientsValidate(setup, Exec(setup, start, events).value, i)
    && (events != [] ==> ValidatesThroughout(setup, start, events[..|events| - 1], i))
  }

  lemma {:induction false} CarefulBothWays(setup: Setup, start: Sys, events: seq<Event>, i: nat)
    ensures CarefulRun(setup, start, events, i)
            <==> PublishesApart(setup, start, events, i) && InstallsHeld(setup, start, events, i)
  {
    if events != [] {
      CarefulBothWays(setup, start, events[..|events| - 1], i);
    }
  }

  /** Continuity fails only there: in a run whose `dane-publish` steps for certificate `i` keep out
      of its rotations, its clients validate throughout if and only if every key it was installed for,
      if it is one that is to keep its key, had had its records held for a TTL. */
  lemma {:induction false} ContinuityExactly(setup: Setup, start: Sys, events: seq<Event>, i: nat)
    requires Separate(setup) && GoodStart(setup, start, i) && Exec(setup, start, events).Some?
    requires PublishesApart(setup, start, events, i)
    ensures ValidatesThroughout(setup, start, events, i) <==> InstallsHeld(setup, start, events, i)
  {
    if events == [] {
      RunKeeps(setup, start, events, i);
      InvValidates(setup, start, i);
    } else {
      var init := events[..|events| - 1];
      var s, e := Exec(setup, start, init).value, events[|events| - 1];
      ContinuityExactly(setup, start, init, i);
      if InstallsHeld(setup, start, init, i) {
        CarefulBothWays(setup, start, init, i);
        RunKeeps(setup, start, init, i);
        if InstallHeld(setup, s, e, i) {
          StepKeeps(setup, s, e, i);
          InvValidates(setup, Next(setup, s, e), i);
        } else {
          InstallKeepsExactly(setup, s, e, i);
        }
      }
    }
  }

  /** For a rotating certificate nothing remains of that: its clients validate throughout, whatever
      fails and whatever is done for other certificates, if no `dane-publish` came into its rotation. */
  lemma RotatingValidates(setup: Setup, start: Sys, events: seq<Event>, i: nat)
    requires Separate(setup) && GoodStart(setup, start, i) && Exec(setup, start, events).Some?
    requires Rotating(setup, i) && forall n :: 0 <= n < |events| ==> !PublishedInto(setup, start, events, n, i)
    ensures ValidatesThroughout(setup, start, events, i)
  {
    RotatingRunIsCareful(setup, start, events, i);
    CarefulBothWays(setup, start, events, i);
    ContinuityExactly(setup, start, events, i);
  }

  /** A certificate is still guarded if and only if its clients have validated throughout. */
  lemma GuardedExactly(setup: Setup, start: Sys, events: seq<Event>, i: nat)
    requires Separate(setup) && GoodStart(setup, start, i) && Exec(setup, start, events).Some?
    requires i in KeptApart(setup, start, events)
    ensures i in Guarded(setup, start, events) <==> ValidatesThroughout(setup, start, events, i)
  {
    CarefulBothWays(setup, start, events, i);
    ContinuityExactly(setup, start, events, i);
  }

  // ----- What a renewal does to the certificates guarded so far -----

  /** A certificate that is to keep its key has a file with a key of other records than before, or
      its first file. */
  predicate Rekeyed(setup: Setup, i: nat, before: map<string, Leaf>, after: map<string, Leaf>) {
    && KeepsKey(setup, i)
    && var path := setup.certificates[i].certPath;
       path in after && !(path in before && SameRecords(setup, i, before[path].spki, after[path].spki))
  }

  /** The steps of certificate `i` took it from `d` to `e`: no certificate has lost its guard but
      this one, and only by being rekeyed without an entry; and if it has a new certificate and kept
      its guard, then the new key's records were there. */
  ghost predicate Carried(setup: Setup, start: Sys, a: seq<Event>, b: seq<Event>, i: nat, entry: bool, d: Durable,
                          e: Durable)
  {
    && a <= b && KeptApart(setup, start, a) <= KeptApart(setup, start, b)
    && Guarded(setup, start, a) - (if !entry && Rekeyed(setup, i, d.certs, e.certs) then {i} else {})
       <= Guarded(setup, start, b)
    && (i in Guarded(setup, start, b) && KeepsKey(setup, i) && e.certs != d.certs ==>
          && setup.certificates[i].certPath in e.certs
          && RecordsShown(setup, d.zone, i, e.certs[setup.certificates[i].certPath].spki))
  }

  /** Steps in which every guarded certificate kept its guard. */
  ghost predicate StillGuarded(setup: Setup, start: Sys, a: seq<Event>, b: seq<Event>) {
    && a <= b && Guarded(setup, start, a) <= Guarded(setup, start, b)
    && KeptApart(setup, start, a) <= KeptApart(setup, start, b)
  }

  /** The steps of certificate `i` that may install a key. */
  ghost predicate Installed(setup: Setup, start: Sys, a: seq<Event>, b: seq<Event>, i: nat, spki: Bytes, d: Durable,
                            e: Durable)
  {
    && Carried(setup, start, a, b, i, false, d, e)
    && Guarded(setup, start, a) - (if MayInstall(setup, d, i, spki) then {} else {i}) <= Guarded(setup, start, b)
  }

  lemma {:induction false} CarefulPrefix(setup: Setup, start: Sys, a: seq<Event>, b: seq<Event>, i: nat)
    requires a <= b && CarefulRun(setup, start, b, i)
    ensures CarefulRun(setup, start, a, i)
  {
    if a != b {
      assert a <= b[..|b| - 1];
      CarefulPrefix(setup, start, a, b[..|b| - 1], i);
    }
  }

  /** A guard once lost is not regained. */
  lemma GuardedPrefix(setup: Setup, start: Sys, a: seq<Event>, b: seq<Event>)
    requires a <= b
    ensures Guarded(setup, start, b) <= Guarded(setup, start, a)
  {
    forall i | i in Guarded(setup, start, b) ensures i in Guarded(setup, start, a) {
      CarefulPrefix(setup, start, a, b, i);
    }
  }

  lemma NothingInstalled(setup: Setup, start: Sys, a: seq<Event>, b: seq<Event>, i: nat, spki: Bytes, entry: bool,
                         d: Durable, e: Durable)
    requires StillGuarded(setup, start, a, b) && d.certs == e.certs
    ensures Carried(setup, start, a, b, i, entry, d, e) && Installed(setup, start, a, b, i, spki, d, e)
  {
  }

  /** Steps before, in which only time passed, and steps after, in which no certificate was
      installed, make no difference. */
  lemma CarriedAround(setup: Setup, start: Sys, a: seq<Event>, b: seq<Event>, c: seq<Event>, f: seq<Event>, i: nat,
                      entry: bool, d: Durable, m: Durable, n: Durable, e: Durable)
    requires StillGuarded(setup, start, a, b) && m.certs == d.certs && m.zone == d.zone
    requires Carried(setup, start, b, c, i, entry, m, n)
    requires StillGuarded(setup, start, c, f) && e.certs == n.certs
    ensures Carried(setup, start, a, f, i, entry, d, e)
  {
    hide Guarded, KeptApart, RecordsShown, Rekeyed;
    GuardedPrefix(setup, start, c, f);
  }

  lemma InstalledAround(setup: Setup, start: Sys, a: seq<Event>, b: seq<Event>, c: seq<Event>, f: seq<Event>, i: nat,
                        spki: Bytes, d: Durable, m: Durable, n: Durable, e: Durable)
    requires StillGuarded(setup, start, a, b) && m.certs == d.certs && m.zone == d.zone && d.now <= m.now
    requires Installed(setup, start, b, c, i, spki, m, n)
    requires StillGuarded(setup, start, c, f) && e.certs == n.certs
    ensures Installed(setup, start, a, f, i, spki, d, e)
  {
    hide Guarded, KeptApart, RecordsShown, Rekeyed;
    CarriedAround(setup, start, a, b, c, f, i, false, d, m, n, e);
    if MayInstall(setup, d, i, spki) {
      HeldLonger(setup, d, m, i, spki);
    }
  }

  lemma InstalledIsCarried(setup: Setup, start: Sys, a: seq<Event>, b: seq<Event>, i: nat, spki: Bytes, d: Durable,
                           e: Durable)
    requires Installed(setup, start, a, b, i, spki, d, e)
    ensures Carried(setup, start, a, b, i, false, d, e)
  {
  }

  /** A key that may be installed takes the guard from nobody. */
  lemma InstalledOfRight(setup: Setup, start: Sys, a: seq<Event>, b: seq<Event>, i: nat, spki: Bytes, d: Durable,
                         e: Durable)
    requires Installed(setup, start, a, b, i, spki, d, e)
    requires i in Guarded(setup, start, a) ==> MayInstall(setup, d, i, spki)
    ensures Carried(setup, start, a, b, i, true, d, e)
  {
  }

  /** Where a guarded certificate is installed for a key with the records of the one before, those
      are held already. */
  lemma SameRecordsMayInstall(setup: Setup, start: Sys, events: seq<Event>, i: nat, leaf: Leaf)
    requires Exec(setup, start, events).Some? && i in Guarded(setup, start, events)
    requires var before := Exec(setup, start, events).value.disk.certs;
             !Rekeyed(setup, i, before, before[setup.certificates[i].certPath := leaf])
    ensures MayInstall(setup, Exec(setup, start, events).value.disk, i, leaf.spki)
  {
    if KeepsKey(setup, i) {
      RunKeeps(setup, start, events, i);
      var d := Exec(setup, start, events).value.disk;
      assert DiskInv(setup, d, i);
      SameRecordsHeld(setup, d, i, d.certs[setup.certificates[i].certPath].spki, leaf.spki);
    }
  }

  /** So does a key whose entry has waited. */
  lemma PendingMayInstall(setup: Setup, start: Sys, events: seq<Event>, i: nat)
    requires Exec(setup, start, events).Some? && i in Guarded(setup, start, events)
    requires CanTake(setup, Exec(setup, start, events).value, i)
    ensures var s := Exec(setup, start, events).value;
            var path := s.process.pending[setup.certificates[i].name].keyPath;
            path in s.disk.pendingKeys ==> MayInstall(setup, s.disk, i, s.disk.pendingKeys[path].spki)
  {
    if KeepsKey(setup, i) {
      RunKeeps(setup, start, events, i);
      var s := Exec(setup, start, events).value;
      assert CertInv(setup, s, i);
      ExpiredEntryIsHeld(setup, s.disk, i, s.process.pending[setup.certificates[i].name]);
    }
  }

  // ----- The failing runs -----

  lemma InstallsFirst(setup: Setup, s: Sys, i: nat, key: Key, leaf: Leaf) returns (u: Sys)
    requires Separate(setup) && GoodStart(setup, s, i) && KeepsKey(setup, i)
    requires setup.certificates[i].name !in s.disk.stateFile && leaf.spki == key.spki
    ensures Exec(setup, s, [StartRun, UseKey(i, key)]) == Some(u) && Inv(setup, u, i) && u.disk == s.disk
    ensures Enabled(setup, u, InstallCertificate(leaf)) && u.process.stage.i == i
    ensures Exec(setup, s, [StartRun, UseKey(i, key), InstallCertificate(leaf)])
            == Some(Next(setup, u, InstallCertificate(leaf)))
  {
    var run := [StartRun, UseKey(i, key), InstallCertificate(leaf)];
    assert run[..1] == [] + [StartRun] && run[..2] == [StartRun, UseKey(i, key)] == run[..1] + [UseKey(i, key)];
    assert run == run[..2] + [InstallCertificate(leaf)];
    ExecAppend(setup, s, [], StartRun);
    ExecAppend(setup, s, run[..1], UseKey(i, key));
    var t := Exec(setup, s, run[..1]).value;
    u := Exec(setup, s, run[..2]).value;
    StepKeeps(setup, s, StartRun, i);
    StepKeeps(setup, t, UseKey(i, key), i);
    ExecAppend(setup, s, run[..2], InstallCertificate(leaf));
  }

  /** The failing run: the stored key does not load, so a fresh key is used. With the installed
      certificate's records published, it breaks clients exactly when the fresh key has other
      records, that is, but for colliding digests, always. */
  lemma FreshKeyBreaks(setup: Setup, s: Sys, i: nat, key: Key, leaf: Leaf)
    requires Separate(setup) && GoodStart(setup, s, i) && KeepsKey(setup, i) && Settled(setup, s.disk, i)
    requires setup.certificates[i].name !in s.disk.stateFile && leaf.spki == key.spki
    ensures var events := [StartRun, UseKey(i, key), InstallCertificate(leaf)];
            && Exec(setup, s, events).Some?
            && (ClientsValidate(setup, Exec(setup, s, events).value, i)
                <==> SameRecords(setup, i, s.disk.certs[setup.certificates[i].certPath].spki, key.spki))
  {
    var u := InstallsFirst(setup, s, i, key, leaf);
    InstallKeepsExactly(setup, u, InstallCertificate(leaf), i);
  }

  /** The first certificate fails its clients always: its key has not been published yet, and it is
      installed before its records are. Only a block that names no host would not notice. */
  lemma FirstIssuanceBreaks(setup: Setup, s: Sys, i: nat, key: Key, leaf: Leaf)
    requires Separate(setup) && GoodStart(setup, s, i) && KeepsKey(setup, i) && s.disk.zone == map[]
    requires setup.certificates[i].name !in s.disk.stateFile && leaf.spki == key.spki
    ensures var events := [StartRun, UseKey(i, key), InstallCertificate(leaf)];
            && Exec(setup, s, events).Some?
            && (ClientsValidate(setup, Exec(setup, s, events).value, i)
                <==> forall j: nat, name :: !IsPrePublishedSite(setup.certificates[i], j, name))
  {
    var u := InstallsFirst(setup, s, i, key, leaf);
    InstallKeepsExactly(setup, u, InstallCertificate(leaf), i);
  }
}
