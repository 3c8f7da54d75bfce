/** Pre-publication of a new key's records (src/renew.rs:427-458, src/dane.rs:80-100). */
module PrePublish {
  import opened Prelude
  import opened Config
  import opened History
  import opened Tlsa
  import opened Protocol
  import opened World
  import Names
  import Safety

  /** The TLSA names pre-publication adds to, in the order it adds. */
  function SiteNames(blocks: seq<Dane>): seq<string> {
    if blocks == [] then []
    else
      var last := blocks[|blocks| - 1];
      SiteNames(blocks[..|blocks| - 1]) + if last.PrePublished() then last.names else []
  }

  predicate Unused(zone: map<string, Log>, name: string) {
    Current(LogOf(zone, name)) == {}
  }

  predicate AllUnused(zone: map<string, Log>, names: seq<string>) {
    forall k :: 0 <= k < |names| ==> Unused(zone, names[k])
  }

  /** No two entries denote the same DNS name. */
  predicate AllDistinct(names: seq<string>) {
    forall k, l :: 0 <= k < l < |names| ==> Names.Canonical(names[k]) != Names.Canonical(names[l])
  }

  /** Whether a server would accept every add of a pre-publication. With the prerequisite
      "RRset does not exist" in force this needs every name to be without TLSA records. */
  predicate Accepts(exclusiveAdd: bool, zone: map<string, Log>, names: seq<string>) {
    exclusiveAdd ==> AllUnused(zone, names) && AllDistinct(names)
  }

  /** After the adds to `names`, exactly the names that had no RRset and were not added to
      have none. */
  ghost predicate UsedUp(before: map<string, Log>, after: map<string, Log>, names: seq<string>) {
    forall m :: Unused(after, m) <==> Unused(before, m) && !Names.Denotes(names, m)
  }

  /** Only the clock and the zone changed on disk. */
  predicate ZoneOnly(s: Sys, t: Sys) {
    s.disk.now <= t.disk.now && t.disk == s.disk.(now := t.disk.now, zone := t.disk.zone)
  }

  /** Records were published alongside the old ones: none was withdrawn, and no RRset changed but
      those at the certificate's own names. */
  ghost predicate OnlyExtended(cert: Certificate, before: map<string, Log>, after: map<string, Log>) {
    forall m :: LogOf(after, m) == LogOf(before, m)
                || (OwnName(cert, m) && Current(LogOf(before, m)) <= Current(LogOf(after, m)))
  }

  /** Between two states of one pre-publication, only more records were added and more sites
      confirmed. */
  ghost predicate StillPublishing(cert: Certificate, s: Sys, t: Sys) {
    && ZoneOnly(s, t) && OnlyExtended(cert, s.disk.zone, t.disk.zone)
    && s.process.Up? && s.process.stage.Publishing? && t.process.Up? && t.process.stage.Publishing?
    && s.process.stage.added <= t.process.stage.added
    && t.process == s.process.(stage := s.process.stage.(added := t.process.stage.added))
  }

  lemma ExtendedTwice(cert: Certificate, a: map<string, Log>, b: map<string, Log>, c: map<string, Log>)
    requires OnlyExtended(cert, a, b) && OnlyExtended(cert, b, c)
    ensures OnlyExtended(cert, a, c)
  {
  }

  lemma ExtendedByAdd(cert: Certificate, j: nat, zone: map<string, Log>, name: string, v: Version)
    requires IsSite(cert, j, name) && Current(LogOf(zone, name)) <= v.rrset
    ensures OnlyExtended(cert, zone, Push(zone, name, v))
  {
    var k :| 0 <= k < |cert.dane[j].names| && cert.dane[j].names[k] == name;
    forall m ensures LogOf(Push(zone, name, v), m) == LogOf(zone, m)
      || (OwnName(cert, m) && Current(LogOf(zone, m)) <= Current(LogOf(Push(zone, name, v), m)))
    {
      if Names.Canonical(m) == Names.Canonical(name) {
        assert Names.Denotes(cert.dane[j].names, m);
      }
    }
  }

  lemma UsedUpByAdd(before: map<string, Log>, zone: map<string, Log>, names: seq<string>, name: string, v: Version)
    requires UsedUp(before, zone, names) && v.rrset != {}
    ensures UsedUp(before, Push(zone, name, v), names + [name])
  {
    var after := Push(zone, name, v);
    forall m ensures Unused(after, m) <==> Unused(before, m) && !Names.Denotes(names + [name], m) {
      if Names.Canonical(m) == Names.Canonical(name) {
        assert (names + [name])[|names|] == name;
        assert Names.Denotes(names + [name], m);
      } else {
        assert LogOf(after, m) == LogOf(zone, m);
        if Names.Denotes(names, m) {
          var k :| 0 <= k < |names| && Names.Canonical(names[k]) == Names.Canonical(m);
          assert (names + [name])[k] == names[k];
        }
        if Names.Denotes(names + [name], m) {
          var k :| 0 <= k < |names + [name]| && Names.Canonical((names + [name])[k]) == Names.Canonical(m);
          assert names[k] == (names + [name])[k];
        }
      }
    }
  }

  /** One more add is accepted exactly when the list with it is. */
  lemma AcceptsOneMore(before: map<string, Log>, zone: map<string, Log>, names: seq<string>, name: string)
    requires UsedUp(before, zone, names) && AllUnused(before, names) && AllDistinct(names)
    ensures Unused(zone, name) <==> AllUnused(before, names + [name]) && AllDistinct(names + [name])
  {
    var more := names + [name];
    if Unused(zone, name) {
      forall k, l | 0 <= k < l < |more| ensures Names.Canonical(more[k]) != Names.Canonical(more[l]) {
        if l == |names| {
          assert !Names.Denotes(names, name);
          assert names[k] == more[k];
        }
      }
    }
    if AllUnused(before, more) && AllDistinct(more) {
      assert more[|names|] == name;
      forall k | 0 <= k < |names| ensures Names.Canonical(names[k]) != Names.Canonical(name) {
        assert more[k] == names[k];
      }
    }
  }

  lemma AcceptsPrefix(before: map<string, Log>, names: seq<string>, more: seq<string>)
    requires AllUnused(before, names + more) && AllDistinct(names + more)
    ensures AllUnused(before, names) && AllDistinct(names)
  {
    var all := names + more;
    assert forall k :: 0 <= k < |names| ==> all[k] == names[k];
  }

  /** One add, after the adds to `done`. */
  method AddOne(w: World, i: nat, j: nat, block: Dane, name: string, record: Record,
                ghost before: map<string, Log>, ghost done: seq<string>)
    returns (ok: bool)
    requires w.Valid() && w.process.Up? && w.process.stage.Publishing? && w.process.stage.i == i
    requires i < |w.setup.certificates| && IsPrePublishedSite(w.setup.certificates[i], j, name)
    requires block == w.setup.certificates[i].dane[j]
    requires record == FromSpki(w.setup.hash, w.process.stage.key.spki, block)
    requires UsedUp(before, w.zone, done) && Accepts(w.setup.exclusiveAdd, before, done)
    modifies w
    ensures w.Valid() && Grew(w) && StillPublishing(w.setup.certificates[i], old(w.Cur()), w.Cur())
    ensures ok ==> (j, name) in w.process.stage.added
    ensures ok ==> UsedUp(before, w.zone, done + [name]) && Accepts(w.setup.exclusiveAdd, before, done + [name])
    ensures w.reliable ==> (ok <==> Accepts(w.setup.exclusiveAdd, before, done + [name]))
  {
    if w.setup.exclusiveAdd {
      AcceptsOneMore(before, w.zone, done, name);
    }
    ghost var zone := w.zone;
    hide Safety.Guarded, Safety.KeptApart, OnlyExtended;
    ok := w.AddTlsaRecord(j, name, record, block.ttl);
    ghost var v := Version(w.now, Current(LogOf(zone, name)) + {record});
    ExtendedByAdd(w.setup.certificates[i], j, zone, name, v);
    NothingAdded(w.setup.exclusiveAdd, w.setup.certificates[i], zone);
    if ok {
      assert record in v.rrset;
      UsedUpByAdd(before, zone, done, name, v);
    }
  }

  lemma OneMoreName(done: seq<string>, names: seq<string>, k: nat)
    requires k < |names|
    ensures done + names[..k + 1] == done + names[..k] + [names[k]]
    ensures done + names == (done + names[..k + 1]) + names[k + 1..]
  {
  }

  lemma RefusedOnce(exclusive: bool, before: map<string, Log>, done: seq<string>, names: seq<string>, k: nat)
    requires k < |names| && !Accepts(exclusive, before, done + names[..k + 1])
    ensures !Accepts(exclusive, before, done + names)
  {
    OneMoreName(done, names, k);
    if AllUnused(before, done + names) && AllDistinct(done + names) {
      AcceptsPrefix(before, done + names[..k + 1], names[k + 1..]);
    }
  }

  /** `add_tlsa` over the names of one block, after the adds to `done`. */
  method AddTlsa(w: World, i: nat, j: nat, block: Dane, record: Record, ghost before: map<string, Log>,
                 ghost done: seq<string>)
    returns (ok: bool)
    requires w.Valid() && w.process.Up? && w.process.stage.Publishing? && w.process.stage.i == i
    requires i < |w.setup.certificates| && j < |w.setup.certificates[i].dane|
    requires block == w.setup.certificates[i].dane[j] && block.PrePublished()
    requires record == FromSpki(w.setup.hash, w.process.stage.key.spki, block)
    requires UsedUp(before, w.zone, done) && Accepts(w.setup.exclusiveAdd, before, done)
    modifies w
    ensures w.Valid() && Grew(w) && StillPublishing(w.setup.certificates[i], old(w.Cur()), w.Cur())
    ensures ok ==> forall name :: name in block.names ==> (j, name) in w.process.stage.added
    ensures ok ==> UsedUp(before, w.zone, done + block.names)
    ensures ok ==> Accepts(w.setup.exclusiveAdd, before, done + block.names)
    ensures w.reliable ==> (ok <==> Accepts(w.setup.exclusiveAdd, before, done + block.names))
  {
    hide Exec, Safety.Guarded, Safety.KeptApart, OnlyExtended;
    NothingAdded(w.setup.exclusiveAdd, w.setup.certificates[i], w.zone);
    assert done + block.names[..0] == done;
    for k := 0 to |block.names|
      invariant w.Valid() && Grew(w) && StillPublishing(w.setup.certificates[i], old(w.Cur()), w.Cur())
      invariant forall l :: 0 <= l < k ==> (j, block.names[l]) in w.process.stage.added
      invariant UsedUp(before, w.zone, done + block.names[..k])
      invariant Accepts(w.setup.exclusiveAdd, before, done + block.names[..k])
    {
      OneMoreName(done, block.names, k);
      ghost var zone := w.zone;
      ok := AddOne(w, i, j, block, block.names[k], record, before, done + block.names[..k]);
      ExtendedTwice(w.setup.certificates[i], old(w.zone), zone, w.zone);
      if !ok {
        if w.reliable {
          RefusedOnce(w.setup.exclusiveAdd, before, done, block.names, k);
        }
        return;
      }
    }
    ok := true;
    assert block.names[..|block.names|] == block.names;
  }

  /** `AddTlsa` preceded by loading the signing key and connecting, which may fail. */
  method PrePublishBlock(w: World, i: nat, j: nat, block: Dane, key: Key, ghost before: map<string, Log>,
                         ghost done: seq<string>)
    returns (ok: bool)
    requires w.Valid() && w.process.Up? && w.process.stage.Publishing? && w.process.stage.i == i
    requires i < |w.setup.certificates| && j < |w.setup.certificates[i].dane|
    requires block == w.setup.certificates[i].dane[j] && block.PrePublished() && block.names != []
    requires key == w.process.stage.key
    requires UsedUp(before, w.zone, done) && Accepts(w.setup.exclusiveAdd, before, done)
    modifies w
    ensures w.Valid() && Grew(w) && StillPublishing(w.setup.certificates[i], old(w.Cur()), w.Cur())
    ensures ok ==> forall name :: name in block.names ==> (j, name) in w.process.stage.added
    ensures ok ==> UsedUp(before, w.zone, done + block.names)
    ensures ok ==> Accepts(w.setup.exclusiveAdd, before, done + block.names)
    ensures w.reliable ==> (ok <==> Accepts(w.setup.exclusiveAdd, before, done + block.names))
  {
    hide Exec, Safety.Guarded, Safety.KeptApart;
    var records := ComputeFromKey(w.setup.hash, key.spki, block);
    var record := records.value[0];
    var happens, connected := w.Fate();
    if !connected {
      return false;
    }
    ok := AddTlsa(w, i, j, block, record, before, done);
  }

  lemma SiteNamesOneMore(blocks: seq<Dane>, j: nat)
    requires j < |blocks|
    ensures blocks[..j + 1][..j] == blocks[..j] && blocks[..j + 1][j] == blocks[j]
    ensures SiteNames(blocks[..j + 1])
            == SiteNames(blocks[..j]) + if blocks[j].PrePublished() then blocks[j].names else []
    ensures MaxTtl(blocks[..j + 1]) ==
              if blocks[j].PrePublished() && blocks[j].ttl > MaxTtl(blocks[..j])
              then blocks[j].ttl else MaxTtl(blocks[..j])
  {
  }

  lemma {:induction false} SiteNamesExtend(blocks: seq<Dane>, j: nat) returns (rest: seq<string>)
    requires j <= |blocks|
    ensures SiteNames(blocks) == SiteNames(blocks[..j]) + rest
    decreases |blocks| - j
  {
    if j == |blocks| {
      assert blocks[..j] == blocks;
      rest := [];
    } else {
      var more := SiteNamesExtend(blocks, j + 1);
      SiteNamesOneMore(blocks, j);
      rest := (if blocks[j].PrePublished() then blocks[j].names else []) + more;
    }
  }

  /** A refused block refuses the whole list. */
  lemma RefusedBlock(exclusive: bool, before: map<string, Log>, blocks: seq<Dane>, j: nat)
    requires j <= |blocks| && !Accepts(exclusive, before, SiteNames(blocks[..j]))
    ensures !Accepts(exclusive, before, SiteNames(blocks))
  {
    var rest := SiteNamesExtend(blocks, j);
    if AllUnused(before, SiteNames(blocks)) && AllDistinct(SiteNames(blocks)) {
      AcceptsPrefix(before, SiteNames(blocks[..j]), rest);
    }
  }

  lemma NothingAdded(exclusive: bool, cert: Certificate, zone: map<string, Log>)
    ensures UsedUp(zone, zone, []) && Accepts(exclusive, zone, []) && OnlyExtended(cert, zone, zone)
  {
  }

  lemma NoBlockYet(blocks: seq<Dane>)
    ensures SiteNames(blocks[..0]) == [] && MaxTtl(blocks[..0]) == 0
  {
  }

  /** The sites of the blocks before `n` are confirmed. */
  ghost predicate AddedUpTo(cert: Certificate, n: nat, added: set<Site>) {
    forall l: nat, name :: l < n && IsPrePublishedSite(cert, l, name) ==> (l, name) in added
  }

  lemma AddedOneMore(cert: Certificate, j: nat, added: set<Site>, more: set<Site>)
    requires AddedUpTo(cert, j, added) && added <= more && j < |cert.dane|
    requires cert.dane[j].PrePublished() ==> forall name :: name in cert.dane[j].names ==> (j, name) in more
    ensures AddedUpTo(cert, j + 1, more)
  {
  }

  /** One round of the loop over the blocks. */
  method PrePublishNext(w: World, cert: Certificate, i: nat, j: nat, key: Key, ghost before: map<string, Log>)
    returns (ok: bool)
    requires w.Valid() && w.process.Up? && w.process.stage.Publishing? && w.process.stage.i == i
    requires key == w.process.stage.key
    requires i < |w.setup.certificates| && cert == w.setup.certificates[i] && j < |cert.dane|
    requires cert.dane[j].names != [] && AddedUpTo(cert, j, w.process.stage.added)
    requires UsedUp(before, w.zone, SiteNames(cert.dane[..j]))
    requires Accepts(w.setup.exclusiveAdd, before, SiteNames(cert.dane[..j]))
    modifies w
    ensures w.Valid() && Grew(w) && StillPublishing(w.setup.certificates[i], old(w.Cur()), w.Cur())
    ensures ok ==> AddedUpTo(cert, j + 1, w.process.stage.added)
    ensures ok ==> UsedUp(before, w.zone, SiteNames(cert.dane[..j + 1]))
    ensures ok ==> Accepts(w.setup.exclusiveAdd, before, SiteNames(cert.dane[..j + 1]))
    ensures w.reliable && !ok ==> !Accepts(w.setup.exclusiveAdd, before, SiteNames(cert.dane))
  {
    ghost var added := w.process.stage.added;
    SiteNamesOneMore(cert.dane, j);
    NothingAdded(w.setup.exclusiveAdd, cert, w.zone);
    hide UsedUp, Accepts, OnlyExtended, SiteNames, AddedUpTo, Exec, Safety.Guarded, Safety.KeptApart;
    if !cert.dane[j].PrePublished() {
      assert SiteNames(cert.dane[..j]) + [] == SiteNames(cert.dane[..j]);
      AddedOneMore(cert, j, added, added);
      return true;
    }
    ok := PrePublishBlock(w, i, j, cert.dane[j], key, before, SiteNames(cert.dane[..j]));
    if ok {
      AddedOneMore(cert, j, added, w.process.stage.added);
    } else if w.reliable {
      RefusedBlock(w.setup.exclusiveAdd, before, cert.dane, j + 1);
    }
  }

  /** `pre_publish_dane`: every pre-published site confirmed, and the largest TTL among their
      blocks; on a dependable network it succeeds exactly when the server accepts the adds. */
  method PrePublishDane(w: World, cert: Certificate, i: nat, key: Key) returns (maxTtl: Option<nat>)
    requires w.Valid() && w.process.Up? && w.process.stage.Publishing? && w.process.stage.i == i
    requires i < |w.setup.certificates| && cert == w.setup.certificates[i] && key == w.process.stage.key
    requires forall j :: 0 <= j < |cert.dane| ==> cert.dane[j].names != []
    modifies w
    ensures w.Valid() && Grew(w) && StillPublishing(w.setup.certificates[i], old(w.Cur()), w.Cur())
    ensures maxTtl.Some? ==> maxTtl.value == MaxTtl(cert.dane) && AllAdded(cert, w.process.stage.added)
    ensures w.reliable ==> (maxTtl.Some? <==> Accepts(w.setup.exclusiveAdd, old(w.zone), SiteNames(cert.dane)))
  {
    hide UsedUp, Accepts, OnlyExtended, Exec, Safety.Guarded, Safety.KeptApart, SiteNames, MaxTtl;
    ghost var before := w.zone;
    var max := 0;
    NoBlockYet(cert.dane);
    NothingAdded(w.setup.exclusiveAdd, cert, before);
    for j := 0 to |cert.dane|
      invariant w.Valid() && Grew(w) && StillPublishing(w.setup.certificates[i], old(w.Cur()), w.Cur())
      invariant max == MaxTtl(cert.dane[..j]) && AddedUpTo(cert, j, w.process.stage.added)
      invariant UsedUp(before, w.zone, SiteNames(cert.dane[..j]))
      invariant Accepts(w.setup.exclusiveAdd, before, SiteNames(cert.dane[..j]))
    {
      SiteNamesOneMore(cert.dane, j);
      if cert.dane[j].PrePublished() && cert.dane[j].ttl > max {
        max := cert.dane[j].ttl;
      }
      ghost var zone := w.zone;
      var ok := PrePublishNext(w, cert, i, j, key, before);
      ExtendedTwice(cert, before, zone, w.zone);
      if !ok {
        return None;
      }
    }
    assert cert.dane[..|cert.dane|] == cert.dane;
    maxTtl := Some(max);
  }
}
