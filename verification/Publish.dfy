/** Publication of a certificate's TLSA records (src/dane.rs:57-78, src/renew.rs:286-306). */
module Publish {
  import opened Config
  import opened Expiry
  import opened History
  import opened Tlsa
  import opened Protocol
  import opened World
  import Names
  import Safety

  /** Every RRset is as it was, except that some of those at `names` now hold just `record`. */
  ghost predicate Rewrote(before: map<string, Log>, after: map<string, Log>, names: seq<string>, record: Record) {
    forall m :: LogOf(after, m) == LogOf(before, m) || (Names.Denotes(names, m) && Current(LogOf(after, m)) == {record})
  }

  /** The RRset at each name holds just `record`. */
  predicate AllHold(zone: map<string, Log>, names: seq<string>, record: Record) {
    forall k :: 0 <= k < |names| ==> Current(LogOf(zone, names[k])) == {record}
  }

  /** No TLSA name of a certificate is in two of its blocks. */
  ghost predicate BlocksApart(cert: Certificate) {
    forall j: nat, m, l: nat, n ::
      IsSite(cert, j, m) && IsSite(cert, l, n) && Names.Canonical(m) == Names.Canonical(n) ==> j == l
  }

  /** Each TLSA name of the blocks before `n` holds just the record of the leaf for its block. */
  ghost predicate ShowsUpTo(hash: Hasher, zone: map<string, Log>, cert: Certificate, leaf: Leaf, n: nat) {
    forall j: nat, name :: j < n && IsSite(cert, j, name) ==>
      Current(LogOf(zone, name)) == {FromCertificate(hash, leaf, cert.dane[j])}
  }

  /** The name server shows the leaf's records and nothing else, at every TLSA name. */
  ghost predicate Shows(hash: Hasher, zone: map<string, Log>, cert: Certificate, leaf: Leaf) {
    ShowsUpTo(hash, zone, cert, leaf, |cert.dane|)
  }

  /** An RRset changed only by becoming the record of the leaf for a block that names it. */
  ghost predicate OnlyShown(hash: Hasher, before: map<string, Log>, after: map<string, Log>, cert: Certificate,
                            leaf: Leaf) {
    forall m :: LogOf(after, m) == LogOf(before, m)
      || exists j: nat :: j < |cert.dane| && Names.Denotes(cert.dane[j].names, m)
                          && Current(LogOf(after, m)) == {FromCertificate(hash, leaf, cert.dane[j])}
  }

  /** Between two states, only time passed and the name server changed. */
  predicate OnlyZoneChanged(s: Sys, t: Sys) {
    s.disk.now <= t.disk.now && t == s.(disk := s.disk.(now := t.disk.now, zone := t.disk.zone))
  }

  /** A publication in progress: only time passed and the name server changed, no hook was
      started, and what was guarded still is, but for the certificate itself if its rotation was
      pending. */
  twostate predicate PublishedOnly(w: World, i: nat)
    reads w
  {
    && OnlyZoneChanged(old(w.Cur()), w.Cur()) && NoHooks(w)
    && KeptExcept(w, {}, if Safety.MayReplace(w.setup, old(w.Cur()), i) then {} else {i})
  }

  lemma NothingRewritten(zone: map<string, Log>, names: seq<string>, record: Record)
    ensures Rewrote(zone, zone, names[..0], record) && AllHold(zone, names[..0], record)
  {
  }

  lemma DenotesOneMore(names: seq<string>, k: nat, m: string)
    requires k < |names|
    ensures Names.Denotes(names[..k + 1], m)
            <==> Names.Denotes(names[..k], m) || Names.Canonical(names[k]) == Names.Canonical(m)
  {
    hide Names.Canonical;
    var more := names[..k + 1];
    assert more[k] == names[k] && forall l :: 0 <= l < k ==> names[..k][l] == more[l];
  }

  lemma HoldOneMore(zone: map<string, Log>, names: seq<string>, k: nat, record: Record, now: Instant)
    requires k < |names| && AllHold(zone, names[..k], record)
    ensures AllHold(Push(zone, names[k], Version(now, {record})), names[..k + 1], record)
  {
    hide Names.Canonical;
    var after, more := Push(zone, names[k], Version(now, {record})), names[..k + 1];
    forall l | 0 <= l <= k ensures Current(LogOf(after, more[l])) == {record} {
      if l < k {
        assert names[..k][l] == more[l];
      }
    }
  }

  lemma RewroteOneMore(before: map<string, Log>, zone: map<string, Log>, names: seq<string>, k: nat, record: Record,
                       now: Instant)
    requires k < |names| && Rewrote(before, zone, names[..k], record) && AllHold(zone, names[..k], record)
    ensures var after := Push(zone, names[k], Version(now, {record}));
            Rewrote(before, after, names[..k + 1], record) && AllHold(after, names[..k + 1], record)
    ensures Rewrote(before, zone, names[..k + 1], record)
  {
    hide Names.Canonical, Names.Denotes, AllHold;
    HoldOneMore(zone, names, k, record, now);
    forall m ensures Names.Denotes(names[..k + 1], m)
                     <==> Names.Denotes(names[..k], m) || Names.Canonical(names[k]) == Names.Canonical(m)
    {
      DenotesOneMore(names, k, m);
    }
  }

  lemma RewroteMore(before: map<string, Log>, after: map<string, Log>, names: seq<string>, k: nat, record: Record)
    requires k <= |names| && Rewrote(before, after, names[..k], record)
    ensures Rewrote(before, after, names, record)
  {
    forall m | Names.Denotes(names[..k], m) ensures Names.Denotes(names, m) {
      var l :| 0 <= l < k && Names.Canonical(names[..k][l]) == Names.Canonical(m);
      assert names[l] == names[..k][l];
    }
  }

  /** The names before `k` hold the record, and none after it was touched. */
  ghost predicate StoppedAt(before: map<string, Log>, after: map<string, Log>, names: seq<string>, record: Record,
                            k: nat)
  {
    k < |names| && Rewrote(before, after, names[..k + 1], record) && AllHold(after, names[..k], record)
  }

  /** One name. */
  method PublishName(w: World, i: nat, j: nat, block: Dane, name: string, record: Record, ghost leaf: Leaf)
    returns (ok: bool)
    requires w.Valid() && MayPublish(w.setup, w.Cur(), i, leaf) && IsSite(w.setup.certificates[i], j, name)
    requires block == w.setup.certificates[i].dane[j] && record == FromCertificate(w.setup.hash, leaf, block)
    modifies w
    ensures w.Valid() && PublishedOnly(w, i)
    ensures w.zone == old(w.zone) || w.zone == Push(old(w.zone), name, Version(w.now, {record}))
    ensures ok ==> w.zone == Push(old(w.zone), name, Version(w.now, {record}))
    ensures w.reliable ==> ok
  {
    ok := w.ReplaceTlsaRecords(i, j, name, record, block.ttl, leaf);
  }

  /** `publish_tlsa`: replace the RRset at each name, stopping at the first failure. */
  method PublishTlsa(w: World, i: nat, j: nat, block: Dane, record: Record, ghost leaf: Leaf) returns (ok: bool)
    requires w.Valid() && MayPublish(w.setup, w.Cur(), i, leaf)
    requires j < |w.setup.certificates[i].dane| && block == w.setup.certificates[i].dane[j]
    requires record == FromCertificate(w.setup.hash, leaf, block)
    modifies w
    ensures w.Valid() && PublishedOnly(w, i)
    ensures Rewrote(old(w.zone), w.zone, block.names, record)
    ensures ok ==> AllHold(w.zone, block.names, record)
    ensures !ok ==> exists k: nat :: StoppedAt(old(w.zone), w.zone, block.names, record, k)
    ensures w.reliable ==> ok
  {
    hide Rewrote, AllHold, Exec, Safety.Guarded, Safety.KeptApart, Push;
    NothingRewritten(w.zone, block.names, record);
    for k := 0 to |block.names|
      invariant w.Valid() && PublishedOnly(w, i)
      invariant Rewrote(old(w.zone), w.zone, block.names[..k], record) && AllHold(w.zone, block.names[..k], record)
    {
      ghost var zone := w.zone;
      ok := PublishName(w, i, j, block, block.names[k], record, leaf);
      RewroteOneMore(old(w.zone), zone, block.names, k, record, w.now);
      if !ok {
        RewroteMore(old(w.zone), w.zone, block.names, k + 1, record);
        assert StoppedAt(old(w.zone), w.zone, block.names, record, k) by {
          StillHold(zone, w.zone, block.names, k, record, w.now);
        }
        return;
      }
    }
    ok := true;
    assert block.names[..|block.names|] == block.names;
  }

  /** A name that may or may not have been written does not disturb those before it. */
  lemma StillHold(zone: map<string, Log>, after: map<string, Log>, names: seq<string>, k: nat, record: Record,
                  now: Instant)
    requires k < |names| && AllHold(zone, names[..k], record)
    requires after == zone || after == Push(zone, names[k], Version(now, {record}))
    ensures AllHold(after, names[..k], record)
  {
  }

  lemma ShowsOneMore(hash: Hasher, zone: map<string, Log>, after: map<string, Log>, cert: Certificate, leaf: Leaf,
                     n: nat)
    requires n < |cert.dane| && BlocksApart(cert) && ShowsUpTo(hash, zone, cert, leaf, n)
    requires var r := FromCertificate(hash, leaf, cert.dane[n]);
             Rewrote(zone, after, cert.dane[n].names, r) && AllHold(after, cert.dane[n].names, r)
    ensures ShowsUpTo(hash, after, cert, leaf, n + 1)
  {
    forall j: nat, name | j < n + 1 && IsSite(cert, j, name)
      ensures Current(LogOf(after, name)) == {FromCertificate(hash, leaf, cert.dane[j])}
    {
      if j == n {
        var k :| 0 <= k < |cert.dane[n].names| && cert.dane[n].names[k] == name;
      } else if Names.Denotes(cert.dane[n].names, name) {
        var k :| 0 <= k < |cert.dane[n].names| && Names.Canonical(cert.dane[n].names[k]) == Names.Canonical(name);
        assert IsSite(cert, n, cert.dane[n].names[k]);
      }
    }
  }

  lemma OnlyShownOneMore(hash: Hasher, before: map<string, Log>, zone: map<string, Log>, after: map<string, Log>,
                         cert: Certificate, leaf: Leaf, n: nat)
    requires n < |cert.dane| && OnlyShown(hash, before, zone, cert, leaf)
    requires Rewrote(zone, after, cert.dane[n].names, FromCertificate(hash, leaf, cert.dane[n]))
    ensures OnlyShown(hash, before, after, cert, leaf)
  {
  }

  /** Each TLSA name of the blocks that were published holds just the record of the leaf for its
      block. */
  ghost predicate ShowsPublished(hash: Hasher, zone: map<string, Log>, cert: Certificate, leaf: Leaf,
                                 published: seq<bool>)
  {
    forall j: nat, name :: j < |published| && published[j] && IsSite(cert, j, name) ==>
      Current(LogOf(zone, name)) == {FromCertificate(hash, leaf, cert.dane[j])}
  }

  /** One more block, whether it was published or failed on the way: the others still show. */
  lemma OneMoreBlock(hash: Hasher, zone: map<string, Log>, after: map<string, Log>, cert: Certificate, leaf: Leaf,
                     published: seq<bool>, ok: bool)
    requires |published| < |cert.dane| && BlocksApart(cert) && ShowsPublished(hash, zone, cert, leaf, published)
    requires var block := cert.dane[|published|];
             && Rewrote(zone, after, block.names, FromCertificate(hash, leaf, block))
             && (ok ==> AllHold(after, block.names, FromCertificate(hash, leaf, block)))
    ensures ShowsPublished(hash, after, cert, leaf, published + [ok])
  {
    var n, all := |published|, published + [ok];
    forall j: nat, name | j < |all| && all[j] && IsSite(cert, j, name)
      ensures Current(LogOf(after, name)) == {FromCertificate(hash, leaf, cert.dane[j])}
    {
      if j == n {
        var k :| 0 <= k < |cert.dane[n].names| && cert.dane[n].names[k] == name;
      } else {
        assert published[j];
        if Names.Denotes(cert.dane[n].names, name) {
          var k :| 0 <= k < |cert.dane[n].names| && Names.Canonical(cert.dane[n].names[k]) == Names.Canonical(name);
          assert IsSite(cert, n, cert.dane[n].names[k]);
        }
      }
    }
  }

  lemma AllPublishedShow(hash: Hasher, zone: map<string, Log>, cert: Certificate, leaf: Leaf, published: seq<bool>)
    requires |published| == |cert.dane| && ShowsPublished(hash, zone, cert, leaf, published)
    requires forall j :: 0 <= j < |published| ==> published[j]
    ensures Shows(hash, zone, cert, leaf)
  {
  }

  lemma NothingPublishedYet(hash: Hasher, zone: map<string, Log>, cert: Certificate, leaf: Leaf)
    ensures OnlyShown(hash, zone, zone, cert, leaf) && ShowsPublished(hash, zone, cert, leaf, [])
  {
  }

  /** One block of a publication after issuance, which may fail at any point. */
  method PublishBlock(w: World, cert: Certificate, i: nat, j: nat, leaf: Leaf) returns (ok: bool)
    requires w.Valid() && MayPublish(w.setup, w.Cur(), i, leaf) && cert == w.setup.certificates[i]
    requires j < |cert.dane| && cert.dane[j].names != []
    modifies w
    ensures w.Valid() && PublishedOnly(w, i)
    ensures Rewrote(old(w.zone), w.zone, cert.dane[j].names, FromCertificate(w.setup.hash, leaf, cert.dane[j]))
    ensures ok ==> AllHold(w.zone, cert.dane[j].names, FromCertificate(w.setup.hash, leaf, cert.dane[j]))
    ensures w.reliable ==> ok
  {
    hide Exec, Safety.Guarded, Safety.KeptApart, AllHold;
    var records := ComputeRecords(w.setup.hash, leaf, cert.dane[j]);
    var happens, connected := w.Fate();
    if !connected {
      return false;
    }
    ok := PublishTlsa(w, i, j, cert.dane[j], records[0], leaf);
  }

  /** Publication after issuance: a block that fails is reported and the next one is tried. Each block
      has its outcome, and those that succeeded show their records whatever became of the others. */
  method PublishAll(w: World, cert: Certificate, i: nat, leaf: Leaf) returns (published: seq<bool>)
    requires w.Valid() && MayPublish(w.setup, w.Cur(), i, leaf) && cert == w.setup.certificates[i]
    requires forall j :: 0 <= j < |cert.dane| ==> cert.dane[j].names != []
    modifies w
    ensures w.Valid() && PublishedOnly(w, i)
    ensures |published| == |cert.dane|
    ensures OnlyShown(w.setup.hash, old(w.zone), w.zone, cert, leaf)
    ensures BlocksApart(cert) ==> ShowsPublished(w.setup.hash, w.zone, cert, leaf, published)
    ensures w.reliable ==> forall j :: 0 <= j < |published| ==> published[j]
  {
    hide Exec, Safety.Guarded, Safety.KeptApart, OnlyShown, ShowsPublished, BlocksApart, Rewrote, AllHold;
    published := [];
    NothingPublishedYet(w.setup.hash, w.zone, cert, leaf);
    for j := 0 to |cert.dane|
      invariant w.Valid() && PublishedOnly(w, i) && |published| == j
      invariant OnlyShown(w.setup.hash, old(w.zone), w.zone, cert, leaf)
      invariant BlocksApart(cert) ==> ShowsPublished(w.setup.hash, w.zone, cert, leaf, published)
      invariant w.reliable ==> forall l :: 0 <= l < j ==> published[l]
    {
      ghost var zone := w.zone;
      var ok := PublishBlock(w, cert, i, j, leaf);
      OnlyShownOneMore(w.setup.hash, old(w.zone), zone, w.zone, cert, leaf, j);
      if BlocksApart(cert) {
        OneMoreBlock(w.setup.hash, zone, w.zone, cert, leaf, published, ok);
      }
      published := published + [ok];
    }
  }
}
