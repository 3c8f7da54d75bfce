/** The promise to clients once more, in the words of the configuration and of DNS alone: which blocks
    it is about, what clients read, and what is asked of the operator. */
module Promise {
  import opened Prelude
  import opened Config
  import opened Expiry
  import opened History
  import opened Tlsa
  import opened Protocol
  import opened Safety
  import KeptKeys
  import Names
  import Series
  import Validation
  import World

  /** In every reached state, for every block of a certificate that is published early for the public
      key, whatever its usage, matching and TTL: every answer that is fresh, or was fetched less than
      a TTL ago, holds a record that a client reads as the installed certificate's. */
  lemma BlockContinuity(setup: Setup, start: Sys, s: Sys, i: nat, j: nat, name: string, answer: set<Record>)
    requires Separate(setup) && GoodStart(setup, start, i) && Reached(setup, start, s, i)
    requires i < |setup.certificates| && j < |setup.certificates[i].dane|
    requires var block := setup.certificates[i].dane[j];
             && block.prePublish && block.selector == DaneSelector.Spki && name in block.names
             && Usable(LogOf(s.disk.zone, name), s.disk.now, block.ttl * 1_000_000_000, answer)
    requires setup.certificates[i].certPath in s.disk.certs
    ensures var leaf, block := s.disk.certs[setup.certificates[i].certPath], setup.certificates[i].dane[j];
            exists r :: r in answer && OnTheWire(setup.hash, leaf.der, leaf.spki, block, Encode(ToRData(r)))
  {
    var leaf, block := s.disk.certs[setup.certificates[i].certPath], setup.certificates[i].dane[j];
    DaneContinuity(setup, start, s, i);
    CertificateOnTheWire(setup.hash, leaf, block);
    assert IsPrePublishedSite(setup.certificates[i], j, name);
    assert FromCertificate(setup.hash, leaf, block) in answer;
  }

  /** And a saved entry is true: its key file is there, it was stamped in the past, it waits for the TTL
      of each such block, and the server shows that key's record at each of the block's names. */
  lemma EntryIsTrue(setup: Setup, start: Sys, s: Sys, i: nat, j: nat, name: string)
    requires Separate(setup) && GoodStart(setup, start, i) && Reached(setup, start, s, i)
    requires i < |setup.certificates| && j < |setup.certificates[i].dane|
    requires var block := setup.certificates[i].dane[j];
             block.prePublish && block.selector == DaneSelector.Spki && name in block.names
    requires setup.certificates[i].name in s.disk.stateFile
    ensures var block, p := setup.certificates[i].dane[j], s.disk.stateFile[setup.certificates[i].name];
            && p.keyPath == "pending/" + setup.certificates[i].name + ".key" && p.keyPath in s.disk.pendingKeys
            && p.publishedAt <= s.disk.now && block.ttl <= p.oldTtl
            && exists r :: r in Current(LogOf(s.disk.zone, name))
                 && OnTheWire(setup.hash, [], s.disk.pendingKeys[p.keyPath].spki, block, Encode(ToRData(r)))
  {
    var block, p := setup.certificates[i].dane[j], s.disk.stateFile[setup.certificates[i].name];
    DaneContinuity(setup, start, s, i);
    assert block.PrePublished() && Covered(setup, i);
    assert IsPrePublishedSite(setup.certificates[i], j, name);
    var r := FromSpki(setup.hash, s.disk.pendingKeys[p.keyPath].spki, block);
    PresentIsCurrent(LogOf(s.disk.zone, name), r, p.publishedAt);
    KeyOnTheWire(setup.hash, [], s.disk.pendingKeys[p.keyPath].spki, block);
  }

  /** Certificates have names and files of their own, and no TLSA name is listed twice for different
      blocks, however it is spelled. */
  ghost predicate KeptApartByConfig(certs: seq<Certificate>) {
    && (forall i, k :: 0 <= i < k < |certs| ==>
          certs[i].name != certs[k].name && certs[i].certPath != certs[k].certPath)
    && forall i, j, x, k, l, y ::
         0 <= i < |certs| && 0 <= j < |certs[i].dane| && 0 <= x < |certs[i].dane[j].names|
         && 0 <= k < |certs| && 0 <= l < |certs[k].dane| && 0 <= y < |certs[k].dane[l].names|
         && Names.Canonical(certs[i].dane[j].names[x]) == Names.Canonical(certs[k].dane[l].names[y]) ==>
           i == k && j == l
  }

  lemma ConfigIsSeparate(setup: Setup)
    requires KeptApartByConfig(setup.certificates)
    ensures Separate(setup)
  {
    var certs := setup.certificates;
    forall i: nat, j: nat, m, k: nat, l: nat, n | i < |certs| && k < |certs| && IsSite(certs[i], j, m)
        && IsSite(certs[k], l, n) && Names.Canonical(m) == Names.Canonical(n)
      ensures i == k && j == l
    {
      var x :| 0 <= x < |certs[i].dane[j].names| && certs[i].dane[j].names[x] == m;
      var y :| 0 <= y < |certs[k].dane[l].names| && certs[k].dane[l].names[y] == n;
    }
  }

  /** From a machine on which nothing has been done, with any sequence of steps, crashes included: if
      the certificate rotates its key, and no `dane-publish` was started for it while its rotation was
      saved, then clients of each such block always find the installed certificate's record. */
  lemma FromScratch(setup: Setup, now: Instant, events: seq<Event>, s: Sys, i: nat, j: nat, name: string,
                    answer: set<Record>)
    requires KeptApartByConfig(setup.certificates)
    requires Exec(setup, Sys(Durable(now, map[], map[], map[], map[], map[]), Down), events) == Some(s)
    requires i < |setup.certificates| && setup.certificates[i].rotateKey && j < |setup.certificates[i].dane|
    requires forall n :: 0 <= n < |events| && events[n].ReplaceRecords? && events[n].i == i ==>
               var before := Exec(setup, Sys(Durable(now, map[], map[], map[], map[], map[]), Down), events[..n]);
               before.Some? && before.value.process.Down? ==>
                 setup.certificates[i].name !in before.value.disk.stateFile
    requires var block := setup.certificates[i].dane[j];
             && block.prePublish && block.selector == DaneSelector.Spki && name in block.names
             && Usable(LogOf(s.disk.zone, name), s.disk.now, block.ttl * 1_000_000_000, answer)
    requires setup.certificates[i].certPath in s.disk.certs
    ensures var leaf, block := s.disk.certs[setup.certificates[i].certPath], setup.certificates[i].dane[j];
            exists r :: r in answer && OnTheWire(setup.hash, leaf.der, leaf.spki, block, Encode(ToRData(r)))
  {
    var start := Sys(Durable(now, map[], map[], map[], map[], map[]), Down);
    ConfigIsSeparate(setup);
    FreshInstallIsGood(setup, now, i);
    assert setup.certificates[i].dane[j].PrePublished();
    assert Rotating(setup, i);
    forall n | 0 <= n < |events| ensures !PublishedInto(setup, start, events, n, i) {
    }
    RotatingRunIsCareful(setup, start, events, i);
    hide Separate, GoodStart, CarefulRun, Usable;
    assert Reached(setup, start, s, i);
    BlockContinuity(setup, start, s, i, j, name, answer);
  }

  /** What clients of one TLSA name find: in every answer that is fresh, or was fetched less than a TTL
      ago, a record that they read as the installed certificate's. */
  ghost predicate NameServed(setup: Setup, d: Durable, cert: Certificate, block: Dane, name: string) {
    cert.certPath in d.certs ==>
      forall answer :: Usable(LogOf(d.zone, name), d.now, block.ttl * 1_000_000_000, answer) ==>
        exists r :: r in answer && OnTheWire(setup.hash, d.certs[cert.certPath].der, d.certs[cert.certPath].spki, block,
                                             Encode(ToRData(r)))
  }

  /** All names of the blocks that are published early for the public key, of the certificates that
      rotate their key. */
  ghost predicate RotatingServed(setup: Setup, d: Durable) {
    forall i: nat, j: nat, name ::
      i < |setup.certificates| && setup.certificates[i].rotateKey && j < |setup.certificates[i].dane|
      && setup.certificates[i].dane[j].prePublish && setup.certificates[i].dane[j].selector == DaneSelector.Spki
      && name in setup.certificates[i].dane[j].names ==>
        NameServed(setup, d, setup.certificates[i], setup.certificates[i].dane[j], name)
  }

  lemma ValidatingIsServed(setup: Setup, s: Sys)
    requires forall i: nat :: Rotating(setup, i) ==> ClientsValidate(setup, s, i)
    ensures RotatingServed(setup, s.disk)
  {
    forall i: nat, j: nat, name |
        i < |setup.certificates| && setup.certificates[i].rotateKey && j < |setup.certificates[i].dane|
        && setup.certificates[i].dane[j].prePublish && setup.certificates[i].dane[j].selector == DaneSelector.Spki
        && name in setup.certificates[i].dane[j].names
      ensures NameServed(setup, s.disk, setup.certificates[i], setup.certificates[i].dane[j], name)
    {
      var cert, block := setup.certificates[i], setup.certificates[i].dane[j];
      assert IsPrePublishedSite(cert, j, name) && Rotating(setup, i);
      if cert.certPath in s.disk.certs {
        CertificateOnTheWire(setup.hash, s.disk.certs[cert.certPath], block);
      }
    }
  }

  lemma FreshIsGuarded(setup: Setup, now: Instant)
    requires KeptApartByConfig(setup.certificates)
    ensures forall i: nat :: i < |setup.certificates| ==>
              i in Guarded(setup, Sys(Durable(now, map[], map[], map[], map[], map[]), Down), [])
  {
    ConfigIsSeparate(setup);
    forall i: nat | i < |setup.certificates|
      ensures GoodStart(setup, Sys(Durable(now, map[], map[], map[], map[], map[]), Down), i)
    {
      FreshInstallIsGood(setup, now, i);
    }
  }

  /** The program itself, from a machine on which nothing has been done: whatever calls of `renew` are
      made one after the other, forced, filtered or dry, on any network and whatever fails, the
      clients of certificates that rotate their key find what they need. */
  method RenewFromScratch(setup: Setup, reliable: bool, now: Instant, c: Configuration, isIp: Validation.IpTest,
                          calls: seq<Series.Options>)
    returns (w: World.World)
    requires setup.certificates == c.certificates && Validation.ValidConfig(c, isIp)
    requires KeptApartByConfig(c.certificates)
    ensures w.Valid() && w.setup == setup && w.reliable == reliable
    ensures RotatingServed(setup, w.Disk())
  {
    hide Guarded, KeptApart, Exec, RotatingServed, KeptApartByConfig, Validation.ValidConfig;
    w := new World.World(setup, reliable, Durable(now, map[], map[], map[], map[], map[]));
    FreshIsGuarded(setup, now);
    var turns := Series.RunMany(w, c, isIp, calls);
    forall i: nat | Rotating(setup, i) ensures ClientsValidate(setup, w.Cur(), i) {
      assert KeptKeys.ValidatesThroughout(setup, w.start, w.events, i);
    }
    ValidatingIsServed(setup, w.Cur());
  }
}
