/** The surroundings a run acts on: clock, files, the name server and the hooks. Every
    effect is one method, may fail with or without having happened, and is recorded as one
    step of the protocol, so that the recorded steps are a run of the state machine. */
module World {
  import opened Prelude
  import opened Expiry
  import opened History
  import opened Tlsa
  import opened Protocol
  import opened Safety

  /** One started hook: the k-th inline hook of a certificate, or a named hook. */
  datatype HookRun = Inline(certificate: string, k: nat) | Named(name: string)

  /** Only the clock moved between two states. */
  predicate Passed(s: Sys, t: Sys) {
    s.disk.now <= t.disk.now && t == s.(disk := s.disk.(now := t.disk.now))
  }

  /** The clock moved, and then one step happened. */
  ghost predicate Did(setup: Setup, s: Sys, e: Event, t: Sys) {
    var m := s.(disk := s.disk.(now := t.disk.now));
    s.disk.now <= t.disk.now && Enabled(setup, m, e) && t == Next(setup, m, e)
  }

  /** The recorded steps were only added to; and the certificates that were guarded before still
      are, except those given a key that was not announced and those published into a rotation. */
  twostate predicate KeptExcept(w: World, rekeyed: set<nat>, published: set<nat>)
    reads w
  {
    && old(w.events) <= w.events && w.start == old(w.start)
    && Guarded(w.setup, w.start, old(w.events)) - rekeyed - published <= Guarded(w.setup, w.start, w.events)
    && KeptApart(w.setup, w.start, old(w.events)) - published <= KeptApart(w.setup, w.start, w.events)
  }

  twostate predicate Kept(w: World)
    reads w
  {
    KeptExcept(w, {}, {})
  }

  twostate predicate NoHooks(w: World)
    reads w
  {
    w.hookLog == old(w.hookLog) && w.hookSaw == old(w.hookSaw)
  }

  /** The last `n` hooks were started when files and records were as in `d`. */
  ghost predicate FoundBy(before: seq<Durable>, after: seq<Durable>, n: nat, d: Durable) {
    && |after| == |before| + n && before <= after
    && forall k :: |before| <= k < |after| ==> after[k] == d.(now := after[k].now)
  }

  /** And hooks are not started. */
  twostate predicate Grew(w: World)
    reads w
  {
    Kept(w) && NoHooks(w)
  }

  /** The certificate whose rotation a step publishes into. */
  function PublishedBy(setup: Setup, s: Sys, e: Event): set<nat> {
    if e.ReplaceRecords? && !MayReplace(setup, s, e.i) then {e.i} else {}
  }

  /** The certificate to which a step gives a key that it should not get yet. */
  ghost function RekeyedBy(setup: Setup, s: Sys, e: Event): set<nat> {
    if e.InstallCertificate? && s.process.Up? && s.process.stage.Issuing?
       && !MayInstall(setup, s.disk, s.process.stage.i, e.leaf.spki)
    then {s.process.stage.i} else {}
  }

  lemma CarefulAppend(setup: Setup, start: Sys, events: seq<Event>, e: Event)
    requires Exec(setup, start, events).Some?
    ensures var s := Exec(setup, start, events).value;
            && Guarded(setup, start, events + [e])
               == Guarded(setup, start, events) - RekeyedBy(setup, s, e) - PublishedBy(setup, s, e)
            && KeptApart(setup, start, events + [e]) == KeptApart(setup, start, events) - PublishedBy(setup, s, e)
  {
    assert (events + [e])[..|events|] == events;
  }

  lemma InstalledIsShown(setup: Setup, d: Durable, i: nat, spki: Bytes)
    requires i < |setup.certificates| && KeepsKey(setup, i) && MayInstall(setup, d, i, spki)
    ensures RecordsShown(setup, d.zone, i, spki)
  {
    var c := setup.certificates[i];
    forall j: nat, name | IsPrePublishedSite(c, j, name)
      ensures FromSpki(setup.hash, spki, c.dane[j]) in Current(LogOf(d.zone, name))
    {
      PresentIsCurrent(LogOf(d.zone, name), FromSpki(setup.hash, spki, c.dane[j]), d.now - c.dane[j].ttl * NANOS);
    }
  }

  /** Reading the RDATA of an RRset yields the RRset. */
  lemma ReadBack(rrset: set<Record>, wires: seq<Bytes>)
    requires forall wire :: wire in wires <==> exists r :: r in rrset && wire == Encode(ToRData(r))
    ensures forall l :: 0 <= l < |wires| ==> Decode(wires[l]).Some?
    ensures forall r :: r in rrset <==> exists l :: 0 <= l < |wires| && FromRData(Decode(wires[l]).value) == r
  {
    forall l | 0 <= l < |wires| ensures Decode(wires[l]).Some? && FromRData(Decode(wires[l]).value) in rrset {
      assert wires[l] in wires;
      var r :| r in rrset && wires[l] == Encode(ToRData(r));
      RecordRoundTrip(r);
    }
    forall r | r in rrset ensures exists l :: 0 <= l < |wires| && FromRData(Decode(wires[l]).value) == r {
      RecordRoundTrip(r);
      assert Encode(ToRData(r)) in wires;
      var l :| 0 <= l < |wires| && wires[l] == Encode(ToRData(r));
    }
  }

  class World {
    const setup: Setup
    /** When set, every call to the outside succeeds unless the name server must refuse it. */
    const reliable: bool

    var now: Instant
    var certs: map<string, Leaf>
    var keys: map<string, Key>
    var pendingKeys: map<string, Key>
    var stateFile: PendingMap
    var zone: map<string, Log>
    var hookLog: seq<HookRun>

    /** What each of them found. */
    ghost var hookSaw: seq<Durable>

    ghost var process: Process
    ghost var start: Sys
    ghost var events: seq<Event>

    function Disk(): Durable
      reads this
    {
      Durable(now, certs, keys, pendingKeys, stateFile, zone)
    }

    ghost function Cur(): Sys
      reads this
    {
      Sys(Disk(), process)
    }

    /** The recorded steps lead from the start to the present state. */
    ghost predicate Valid()
      reads this
    {
      Exec(setup, start, events) == Some(Cur())
    }

    constructor (setup: Setup, reliable: bool, d: Durable)
      ensures Valid() && this.setup == setup && this.reliable == reliable
      ensures Disk() == d && process == Down && start == Sys(d, Down) && events == []
      ensures hookLog == [] && hookSaw == []
    {
      this.setup := setup;
      this.reliable := reliable;
      now, certs, keys, pendingKeys, stateFile, zone := d.now, d.certs, d.keys, d.pendingKeys, d.stateFile, d.zone;
      hookLog, hookSaw := [], [];
      process := Down;
      start := Sys(d, Down);
      events := [];
    }

    /** Take one step: the real fields follow the state machine. */
    ghost method Note(e: Event, s: Sys)
      requires Exec(setup, start, events) == Some(s) && Enabled(setup, s, e) && Next(setup, s, e).disk == Disk()
      modifies this`process, this`events
      ensures Valid() && Cur() == Next(setup, s, e) && events == old(events) + [e]
      ensures KeptExcept(this, RekeyedBy(setup, s, e), PublishedBy(setup, s, e))
      ensures Guarded(setup, start, events) !! RekeyedBy(setup, s, e)
    {
      ExecAppend(setup, start, events, e);
      CarefulAppend(setup, start, events, e);
      process := Next(setup, s, e).process;
      events := events + [e];
    }

    /** Time passes before every call. */
    method Advance()
      requires Valid()
      modifies this`now, this`process, this`events
      ensures Valid() && Passed(old(Cur()), Cur()) && Kept(this)
    {
      hide Guarded, KeptApart;
      var dt: nat :| 0 <= dt;
      ghost var s := Cur();
      now := now + dt;
      Note(Tick(dt), s);
    }

    method ReadClock() returns (t: Instant)
      requires Valid()
      modifies this`now, this`process, this`events
      ensures Valid() && Passed(old(Cur()), Cur()) && Kept(this)
      ensures t == now
    {
      Advance();
      t := now;
    }

    /** Whether a call happens and whether it reports success: a reported success happened. */
    method Fate() returns (happens: bool, ok: bool)
      ensures ok ==> happens
      ensures reliable ==> ok
    {
      happens, ok := *, *;
      if reliable {
        ok := true;
      }
      if ok {
        happens := true;
      }
    }

    /** `CertInfo::load`: the leaf, unless the file is missing, unreadable or malformed. */
    method LoadCertificate(path: string) returns (leaf: Option<Leaf>)
      ensures leaf.Some? ==> path in certs && leaf.value == certs[path]
      ensures reliable && path in certs ==> leaf.Some?
    {
      var happens, ok := Fate();
      leaf := if ok && path in certs then Some(certs[path]) else None;
    }

    /** Reading back a key file: the key that was written, or nothing. */
    method LoadKey(files: map<string, Key>, path: string) returns (key: Option<Key>)
      ensures key.Some? ==> path in files && key.value == files[path]
      ensures reliable && path in files ==> key.Some?
    {
      var happens, ok := Fate();
      key := if ok && path in files then Some(files[path]) else None;
    }

    method WritePendingKey(i: nat, key: Key) returns (ok: bool)
      requires Valid() && i < |setup.certificates| && Enabled(setup, Cur(), Event.WritePendingKey(i, key))
      modifies this
      ensures Valid() && Grew(this)
      ensures ok ==> Did(setup, old(Cur()), Event.WritePendingKey(i, key), Cur())
      ensures ok || Did(setup, old(Cur()), Event.WritePendingKey(i, key), Cur()) || Passed(old(Cur()), Cur())
      ensures reliable ==> ok
    {
      hide Guarded, KeptApart;
      Advance();
      var happens;
      happens, ok := Fate();
      if happens {
        ghost var s := Cur();
        pendingKeys := pendingKeys[PendingPath(setup.certificates[i].name) := key];
        Note(Event.WritePendingKey(i, key), s);
      }
    }

    /** `add_tlsa_record`: an RFC 2136 add with the prerequisite "RRset does not exist". A
        server that honours it answers YXRRSET and changes nothing. */
    method AddTlsaRecord(j: nat, name: string, record: Record, ttl: nat) returns (ok: bool)
      requires Valid() && process.Up? && process.stage.Publishing? && process.stage.i < |setup.certificates|
      requires IsPrePublishedSite(setup.certificates[process.stage.i], j, name)
      requires record == FromSpki(setup.hash, process.stage.key.spki, setup.certificates[process.stage.i].dane[j])
      requires ttl == setup.certificates[process.stage.i].dane[j].ttl
      modifies this
      ensures Valid() && Grew(this)
      ensures ok ==> Did(setup, old(Cur()), AddRecord(j, name, true), Cur())
      ensures ok || Did(setup, old(Cur()), AddRecord(j, name, false), Cur()) || Passed(old(Cur()), Cur())
      ensures reliable ==> (ok <==> ServerAdds(setup, old(zone), name))
    {
      hide Guarded, KeptApart;
      Advance();
      var happens;
      happens, ok := Fate();
      if !(setup.exclusiveAdd ==> Current(LogOf(zone, name)) == {}) {
        happens, ok := false, false;
      }
      if happens {
        ghost var s := Cur();
        zone := Push(zone, name, Version(now, Current(LogOf(zone, name)) + {record}));
        Note(AddRecord(j, name, ok), s);
      }
    }

    /** `replace_tlsa_records`: delete the RRset and add one record, in a single update. */
    method ReplaceTlsaRecords(i: nat, j: nat, name: string, record: Record, ttl: nat, ghost leaf: Leaf)
      returns (ok: bool)
      requires Valid() && MayPublish(setup, Cur(), i, leaf) && IsSite(setup.certificates[i], j, name)
      requires record == FromCertificate(setup.hash, leaf, setup.certificates[i].dane[j])
      requires ttl == setup.certificates[i].dane[j].ttl
      modifies this
      ensures Valid() && NoHooks(this)
      ensures KeptExcept(this, {}, PublishedBy(setup, old(Cur()), ReplaceRecords(i, j, name, leaf)))
      ensures ok ==> Did(setup, old(Cur()), ReplaceRecords(i, j, name, leaf), Cur())
      ensures ok || Did(setup, old(Cur()), ReplaceRecords(i, j, name, leaf), Cur()) || Passed(old(Cur()), Cur())
      ensures reliable ==> ok
    {
      hide Guarded, KeptApart;
      Advance();
      var happens;
      happens, ok := Fate();
      if happens {
        ghost var s := Cur();
        zone := Push(zone, name, Version(now, {record}));
        Note(ReplaceRecords(i, j, name, leaf), s);
      }
    }

    method WriteCertificate(path: string, leaf: Leaf) returns (ok: bool)
      requires Valid() && process.Up? && process.stage.Issuing? && process.stage.i < |setup.certificates|
      requires path == setup.certificates[process.stage.i].certPath && leaf.spki == process.stage.key.spki
      modifies this
      ensures Valid() && NoHooks(this)
      ensures KeptExcept(this, RekeyedBy(setup, old(Cur()), InstallCertificate(leaf)), {})
      ensures ok ==> Did(setup, old(Cur()), InstallCertificate(leaf), Cur())
      ensures Did(setup, old(Cur()), InstallCertificate(leaf), Cur()) || (Passed(old(Cur()), Cur()) && Kept(this))
      ensures Did(setup, old(Cur()), InstallCertificate(leaf), Cur()) ==>
                var i := old(process).stage.i;
                i in Guarded(setup, start, events) ==> KeepsKey(setup, i) ==> RecordsShown(setup, zone, i, leaf.spki)
      ensures reliable ==> ok
    {
      hide Guarded, KeptApart;
      Advance();
      var happens;
      happens, ok := Fate();
      if happens {
        ghost var s := Cur();
        ghost var i := s.process.stage.i;
        if MayInstall(setup, old(Disk()), i, leaf.spki) {
          HeldLonger(setup, old(Disk()), s.disk, i, leaf.spki);
        }
        certs := certs[path := leaf];
        Note(InstallCertificate(leaf), s);
        if i in Guarded(setup, start, events) && KeepsKey(setup, i) {
          assert i !in RekeyedBy(setup, s, InstallCertificate(leaf));
          InstalledIsShown(setup, s.disk, i, leaf.spki);
        }
      }
    }

    method WriteKey(path: string, key: Key) returns (ok: bool)
      requires Valid() && process.Up? && process.stage.Installed? && key == process.stage.key
      modifies this
      ensures Valid() && Grew(this)
      ensures ok ==> Did(setup, old(Cur()), Event.SaveKey(path), Cur())
      ensures ok || Did(setup, old(Cur()), Event.SaveKey(path), Cur()) || Passed(old(Cur()), Cur())
      ensures reliable ==> ok
    {
      hide Guarded, KeptApart;
      Advance();
      var happens;
      happens, ok := Fate();
      if happens {
        ghost var s := Cur();
        keys := keys[path := key];
        Note(Event.SaveKey(path), s);
      }
    }

    method WriteState(pending: PendingMap) returns (ok: bool)
      requires Valid() && process.Up? && pending == process.pending
      modifies this
      ensures Valid() && Grew(this)
      ensures ok ==> Did(setup, old(Cur()), SaveState, Cur())
      ensures ok || Did(setup, old(Cur()), SaveState, Cur()) || Passed(old(Cur()), Cur())
      ensures reliable ==> ok
    {
      hide Guarded, KeptApart;
      Advance();
      var happens;
      happens, ok := Fate();
      if happens {
        ghost var s := Cur();
        stateFile := pending;
        Note(SaveState, s);
      }
    }

    /** A step inside the program: nothing outside changes. */
    ghost method Think(e: Event)
      requires Valid() && Enabled(setup, Cur(), e) && Next(setup, Cur(), e).disk == Disk()
      requires !e.InstallCertificate? && !e.ReplaceRecords?
      modifies this`process, this`events
      ensures Valid() && Cur() == Next(setup, old(Cur()), e) && Kept(this)
    {
      Note(e, Cur());
    }

    /** Done with a certificate, for whatever reason. */
    ghost method LeaveCertificate()
      requires Valid() && process.Up?
      modifies this`process, this`events
      ensures Valid() && Kept(this) && Disk() == old(Disk())
      ensures process == old(process).(stage := Free)
    {
      Note(Leave, Cur());
    }

    /** What any client that asks is sent: the RDATA of the RRset, in some order. */
    method AnswerTlsa(name: string) returns (wires: seq<Bytes>)
      ensures forall wire ::
                wire in wires <==> exists r :: r in Current(LogOf(zone, name)) && wire == Encode(ToRData(r))
    {
      var remaining := Current(LogOf(zone, name));
      wires := [];
      while remaining != {}
        invariant remaining <= Current(LogOf(zone, name))
        invariant forall wire :: wire in wires <==>
                    exists r :: r in Current(LogOf(zone, name)) && r !in remaining && wire == Encode(ToRData(r))
        decreases remaining
      {
        var r :| r in remaining;
        wires := wires + [Encode(ToRData(r))];
        remaining := remaining - {r};
      }
    }

    /** `query_tlsa`: what the server sends is read back record by record. What arrives is what the
        name server holds. */
    method QueryTlsa(name: string) returns (answer: Option<seq<Record>>)
      ensures answer.Some? ==> forall r :: r in answer.value <==> r in Current(LogOf(zone, name))
      ensures reliable ==> answer.Some?
    {
      var happens, ok := Fate();
      if !ok {
        return None;
      }
      var wires := AnswerTlsa(name);
      var records: seq<Record> := [];
      ReadBack(Current(LogOf(zone, name)), wires);
      for k := 0 to |wires|
        invariant forall r :: r in records <==> exists l :: 0 <= l < k && FromRData(Decode(wires[l]).value) == r
      {
        records := records + [FromRData(Decode(wires[k]).value)];
      }
      answer := Some(records);
    }

    /** Start a hook; its own success or failure is reported and otherwise ignored. */
    method StartHook(h: HookRun) returns (ok: bool)
      requires Valid()
      modifies this
      ensures Valid() && Passed(old(Cur()), Cur()) && Kept(this)
      ensures hookLog == old(hookLog) + [h] && hookSaw == old(hookSaw) + [Disk()]
    {
      hide Guarded, KeptApart;
      Advance();
      var happens;
      happens, ok := Fate();
      hookLog, hookSaw := hookLog + [h], hookSaw + [Disk()];
    }

    /** The whole order flow, from the request to the downloaded certificate. The leaf carries
        the requested key; its encoding and expiry are the authority's choice. */
    method IssueCertificate(domains: seq<string>, key: Key) returns (leaf: Option<Leaf>)
      requires Valid()
      modifies this`now, this`process, this`events
      ensures Valid() && Passed(old(Cur()), Cur()) && Kept(this)
      ensures leaf.Some? ==> leaf.value.spki == key.spki
      ensures reliable ==> leaf.Some?
    {
      Advance();
      var happens, ok := Fate();
      var der: Bytes, notAfter: Instant := *, *;
      leaf := if ok then Some(Leaf(der, key.spki, notAfter)) else None;
    }
  }
}
