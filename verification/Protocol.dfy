/** The key-rotation protocol as a state machine. One step is one effect of a `renew` run
    (src/renew.rs), of `dane-publish` (src/main.rs), of the clock, or a crash; a run is any
    sequence of steps that are enabled one after the other. */
module Protocol {
  import opened Prelude
  import opened Config
  import opened Expiry
  import opened History
  import opened Tlsa
  import Names

  /** A key pair: the private part stays opaque, the public part is its SPKI. */
  datatype Key = Key(pkcs8: Bytes, spki: Bytes)

  datatype PendingRotation = PendingRotation(keyPath: string, publishedAt: Instant, oldTtl: nat)

  type PendingMap = map<string, PendingRotation>

  /** What survives a crash: files by path, the saved state file, and the TLSA RRsets by
      canonical name. */
  datatype Durable = Durable(
    now: Instant,
    certs: map<string, Leaf>,
    keys: map<string, Key>,
    pendingKeys: map<string, Key>,
    stateFile: PendingMap,
    zone: map<string, Log>)

  /** A TLSA name of one block: the block's index and the name. */
  type Site = (nat, string)

  /** Where a run stands within one certificate. */
  datatype Stage =
    | Free
    | Publishing(i: nat, key: Key, added: set<Site>)
    | Issuing(i: nat, key: Key)
    | Installed(i: nat, key: Key, leaf: Leaf)

  /** The program: not running, or running with its in-memory pending map and the
      certificates whose key has been determined in this run. */
  datatype Process = Down | Up(pending: PendingMap, visited: set<nat>, stage: Stage)

  datatype Sys = Sys(disk: Durable, process: Process)

  /** The fixed surroundings: the certificates, the digest, and whether the server refuses to
      add to an RRset that exists. The add sends the prerequisite "RRset does not exist"
      (section 2.4.3 of RFC 2136); a server that ignored it would be `exclusiveAdd == false`. */
  datatype Setup = Setup(certificates: seq<Certificate>, hash: Hasher, exclusiveAdd: bool)

  function PendingPath(name: string): string {
    "pending/" + name + ".key"
  }

  function LogOf(zone: map<string, Log>, name: string): Log {
    var n := Names.Canonical(name);
    if n in zone then zone[n] else []
  }

  /** A new version of the RRset at `name`. */
  function Push(zone: map<string, Log>, name: string, v: Version): map<string, Log> {
    zone[Names.Canonical(name) := LogOf(zone, name) + [v]]
  }

  predicate ServerAdds(setup: Setup, zone: map<string, Log>, name: string) {
    setup.exclusiveAdd ==> Current(LogOf(zone, name)) == {}
  }

  /** The waiting time stored with a rotation: the largest TTL of the pre-published blocks. */
  function MaxTtl(blocks: seq<Dane>): nat {
    if blocks == [] then 0
    else
      var rest := MaxTtl(blocks[..|blocks| - 1]);
      var last := blocks[|blocks| - 1];
      if last.PrePublished() && last.ttl > rest then last.ttl else rest
  }

  predicate IsSite(c: Certificate, j: nat, name: string) {
    j < |c.dane| && name in c.dane[j].names
  }

  predicate IsPrePublishedSite(c: Certificate, j: nat, name: string) {
    IsSite(c, j, name) && c.dane[j].PrePublished()
  }

  /** A name that denotes one of the certificate's TLSA names. */
  predicate OwnName(c: Certificate, m: string) {
    exists j :: 0 <= j < |c.dane| && Names.Denotes(c.dane[j].names, m)
  }

  /** No RRset changed but those at the certificate's own names. */
  ghost predicate OnlyOwnNames(c: Certificate, before: map<string, Log>, after: map<string, Log>) {
    forall m :: LogOf(after, m) == LogOf(before, m) || OwnName(c, m)
  }

  ghost predicate AllAdded(c: Certificate, added: set<Site>) {
    forall j: nat, name :: IsPrePublishedSite(c, j, name) ==> (j, name) in added
  }

  datatype Event =
    | Tick(dt: nat)
    | StartRun
    | EndRun
    | WritePendingKey(i: nat, key: Key)
    | AddRecord(j: nat, name: string, confirmed: bool)
    | RecordPending
    | SaveState
    | TakePending(i: nat)
    | LosePending(i: nat)
    | UseKey(i: nat, key: Key)
    | InstallCertificate(leaf: Leaf)
    | SaveKey(path: string)
    | ReplaceRecords(i: nat, j: nat, name: string, leaf: Leaf)
    | Leave

  /** When a step may happen. `EndRun` is the normal end, an error that ends the run, and a
      crash alike; `Leave` is an error or the end of one certificate. */
  ghost predicate Enabled(setup: Setup, s: Sys, e: Event) {
    var cs := setup.certificates;
    match e
    case Tick(_) => true
    case StartRun => s.process.Down?
    case EndRun => s.process.Up?
    case WritePendingKey(i, _) =>
      // A fresh key is generated only for a certificate without a pending entry.
      && s.process.Up? && s.process.stage.Free? && i < |cs| && i !in s.process.visited
      && cs[i].name !in s.process.pending && cs[i].NeedsPrePublish()
    case AddRecord(j, name, _) =>
      && s.process.Up? && s.process.stage.Publishing? && s.process.stage.i < |cs|
      && IsPrePublishedSite(cs[s.process.stage.i], j, name) && ServerAdds(setup, s.disk.zone, name)
    case RecordPending =>
      && s.process.Up? && s.process.stage.Publishing? && s.process.stage.i < |cs|
      && AllAdded(cs[s.process.stage.i], s.process.stage.added)
    case SaveState => s.process.Up?
    case TakePending(i) => CanTake(setup, s, i) && s.process.pending[cs[i].name].keyPath in s.disk.pendingKeys
    case LosePending(i) => CanTake(setup, s, i)
    case UseKey(i, _) =>
      && s.process.Up? && s.process.stage.Free? && i < |cs| && i !in s.process.visited
      && cs[i].name !in s.process.pending && !cs[i].NeedsPrePublish()
    case InstallCertificate(leaf) =>
      // The issued leaf carries the key of the request.
      && s.process.Up? && s.process.stage.Issuing? && s.process.stage.i < |cs|
      && leaf.spki == s.process.stage.key.spki
    case SaveKey(_) => s.process.Up? && s.process.stage.Installed?
    case ReplaceRecords(i, j, name, leaf) => MayPublish(setup, s, i, leaf) && IsSite(cs[i], j, name)
    case Leave => s.process.Up?
  }

  /** Whose records may be published for certificate `i`: the leaf a renewal has just installed,
      or, when no renewal is running, the one in the file (`dane-publish`). */
  predicate MayPublish(setup: Setup, s: Sys, i: nat, leaf: Leaf) {
    && i < |setup.certificates|
    && var path := setup.certificates[i].certPath;
       match s.process
       case Down => path in s.disk.certs && s.disk.certs[path] == leaf
       case Up(_, _, stage) => stage.Installed? && stage.i == i && stage.leaf == leaf
  }

  /** The pending entry may be taken: it is in memory and its TTL has passed. */
  predicate CanTake(setup: Setup, s: Sys, i: nat) {
    && s.process.Up? && s.process.stage.Free? && i < |setup.certificates| && i !in s.process.visited
    && setup.certificates[i].name in s.process.pending
    && var p := s.process.pending[setup.certificates[i].name];
       TtlExpired(p.publishedAt, p.oldTtl, s.disk.now)
  }

  ghost function Next(setup: Setup, s: Sys, e: Event): Sys
    requires Enabled(setup, s, e)
  {
    var cs := setup.certificates;
    var d := s.disk;
    match e
    case Tick(dt) => s.(disk := d.(now := d.now + dt))
    case StartRun => s.(process := Up(d.stateFile, {}, Free))
    case EndRun => s.(process := Down)
    case WritePendingKey(i, key) =>
      Sys(d.(pendingKeys := d.pendingKeys[PendingPath(cs[i].name) := key]),
          s.process.(visited := s.process.visited + {i}, stage := Publishing(i, key, {})))
    case AddRecord(j, name, confirmed) =>
      var st := s.process.stage;
      var r := FromSpki(setup.hash, st.key.spki, cs[st.i].dane[j]);
      Sys(d.(zone := Push(d.zone, name, Version(d.now, Current(LogOf(d.zone, name)) + {r}))),
          if confirmed then s.process.(stage := st.(added := st.added + {(j, name)})) else s.process)
    case RecordPending =>
      var c := cs[s.process.stage.i];
      var p := PendingRotation(PendingPath(c.name), d.now, MaxTtl(c.dane));
      s.(process := s.process.(pending := s.process.pending[c.name := p], stage := Free))
    case SaveState => s.(disk := d.(stateFile := s.process.pending))
    case TakePending(i) =>
      var name := cs[i].name;
      s.(process := Up(s.process.pending - {name}, s.process.visited + {i},
                       Issuing(i, d.pendingKeys[s.process.pending[name].keyPath])))
    case LosePending(i) =>
      s.(process := Up(s.process.pending - {cs[i].name}, s.process.visited + {i}, Free))
    case UseKey(i, key) =>
      s.(process := s.process.(visited := s.process.visited + {i}, stage := Issuing(i, key)))
    case InstallCertificate(leaf) =>
      var st := s.process.stage;
      Sys(d.(certs := d.certs[cs[st.i].certPath := leaf]), s.process.(stage := Installed(st.i, st.key, leaf)))
    case SaveKey(path) => s.(disk := d.(keys := d.keys[path := s.process.stage.key]))
    case ReplaceRecords(i, j, name, leaf) =>
      var r := FromCertificate(setup.hash, leaf, cs[i].dane[j]);
      s.(disk := d.(zone := Push(d.zone, name, Version(d.now, {r}))))
    case Leave => s.(process := s.process.(stage := Free))
  }

  /** The state after a sequence of steps, if each was enabled in its turn. */
  ghost function Exec(setup: Setup, s: Sys, events: seq<Event>): Option<Sys> {
    if events == [] then Some(s)
    else
      match Exec(setup, s, events[..|events| - 1])
      case None => None
      case Some(m) =>
        var e := events[|events| - 1];
        if Enabled(setup, m, e) then Some(Next(setup, m, e)) else None
  }

  ghost predicate Reachable(setup: Setup, start: Sys, s: Sys) {
    exists events :: Exec(setup, start, events) == Some(s)
  }

  lemma ExecAppend(setup: Setup, start: Sys, events: seq<Event>, e: Event)
    requires Exec(setup, start, events).Some? && Enabled(setup, Exec(setup, start, events).value, e)
    ensures Exec(setup, start, events + [e]) == Some(Next(setup, Exec(setup, start, events).value, e))
  {
  }

  /** One run after another is a run. */
  lemma {:induction false} ExecConcat(setup: Setup, start: Sys, a: seq<Event>, b: seq<Event>)
    requires Exec(setup, start, a).Some?
    ensures Exec(setup, start, a + b) == Exec(setup, Exec(setup, start, a).value, b)
  {
    if b == [] {
      assert a + b == a;
    } else {
      var init := b[..|b| - 1];
      ExecConcat(setup, start, a, init);
      assert (a + b)[..|a + b| - 1] == a + init;
    }
  }

  /** The process may end after any step, leaving the disk as it is. */
  lemma CrashAnywhere(setup: Setup, start: Sys, events: seq<Event>, n: nat)
    requires n <= |events| && Exec(setup, start, events).Some?
    requires Exec(setup, start, events[..n]).Some? && Exec(setup, start, events[..n]).value.process.Up?
    ensures Exec(setup, start, events[..n] + [EndRun])
            == Some(Sys(Exec(setup, start, events[..n]).value.disk, Down))
  {
    ExecAppend(setup, start, events[..n], EndRun);
  }

  /** Every state a run passes through is itself reached by a run: a crash can come after any
      step, so what holds of reachable states holds at every crash point. */
  lemma {:induction false} PrefixReached(setup: Setup, start: Sys, events: seq<Event>, n: nat)
    requires n <= |events| && Exec(setup, start, events).Some?
    ensures Exec(setup, start, events[..n]).Some?
  {
    if n < |events| {
      PrefixReached(setup, start, events[..|events| - 1], n);
      assert events[..|events| - 1][..n] == events[..n];
    } else {
      assert events[..n] == events;
    }
  }
}
