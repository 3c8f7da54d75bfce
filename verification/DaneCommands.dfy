/** The commands `dane-publish` and `dane-check` (src/main.rs:162-273), and their agreement:
    what one has published the other finds in order. */
module DaneCommands {
  import opened Prelude
  import opened Config
  import opened History
  import opened Tlsa
  import opened Protocol
  import opened World
  import opened Publish
  import Names
  import PlainRun
  import Safety
  import Validation

  /** The certificates a command works on: selected, and with something to publish. */
  predicate Chosen(setup: Setup, filter: Option<string>, i: nat) {
    i < |setup.certificates| && Selected(filter, setup.certificates[i]) && setup.certificates[i].dane != []
  }

  /** Without `--name` a command is about every certificate with blocks, with it about those so named. */
  predicate Asked(certs: seq<Certificate>, filter: Option<string>, i: nat) {
    i < |certs| && certs[i].dane != [] && (filter.Some? ==> certs[i].name == filter.value)
  }

  lemma ChosenIsAsked(setup: Setup, filter: Option<string>)
    ensures forall i: nat :: Chosen(setup, filter, i) <==> Asked(setup.certificates, filter, i)
  {
  }

  /** The name server shows the records of the certificate in the file. */
  ghost predicate ShowsFile(setup: Setup, certs: map<string, Leaf>, zone: map<string, Log>, i: nat)
    requires i < |setup.certificates|
  {
    var cert := setup.certificates[i];
    cert.certPath in certs && Shows(setup.hash, zone, cert, certs[cert.certPath])
  }

  ghost predicate ChosenShow(setup: Setup, certs: map<string, Leaf>, zone: map<string, Log>, filter: Option<string>,
                             n: nat) {
    forall i: nat :: i < n && Chosen(setup, filter, i) ==> ShowsFile(setup, certs, zone, i)
  }

  predicate AllChosenReadable(setup: Setup, certs: map<string, Leaf>, filter: Option<string>, n: nat) {
    forall i: nat :: i < n && Chosen(setup, filter, i) ==> setup.certificates[i].certPath in certs
  }

  predicate NamedBy(setup: Setup, filter: Option<string>, i: nat, j: nat, m: string) {
    Chosen(setup, filter, i) && j < |setup.certificates[i].dane|
    && Names.Denotes(setup.certificates[i].dane[j].names, m)
  }

  /** An RRset changed only by becoming the record of a chosen one of the first `n` certificates, for a
      block that names it. */
  ghost predicate OnlyChosenShown(setup: Setup, certs: map<string, Leaf>, before: map<string, Log>,
                                  after: map<string, Log>, filter: Option<string>, n: nat)
  {
    forall m :: LogOf(after, m) == LogOf(before, m)
      || exists i: nat, j: nat :: i < n && NamedBy(setup, filter, i, j, m) && setup.certificates[i].certPath in certs
           && Current(LogOf(after, m))
              == {FromCertificate(setup.hash, certs[setup.certificates[i].certPath], setup.certificates[i].dane[j])}
  }

  lemma OneCertificateMore(setup: Setup, certs: map<string, Leaf>, before: map<string, Log>, zone: map<string, Log>,
                           after: map<string, Log>, filter: Option<string>, i: nat)
    requires OnlyChosenShown(setup, certs, before, zone, filter, i)
    requires after != zone ==>
               && Chosen(setup, filter, i) && setup.certificates[i].certPath in certs
               && OnlyShown(setup.hash, zone, after, setup.certificates[i], certs[setup.certificates[i].certPath])
    ensures OnlyChosenShown(setup, certs, before, after, filter, i + 1)
  {
  }

  lemma SeparateBlocksApart(setup: Setup, i: nat)
    requires Safety.Separate(setup) && i < |setup.certificates|
    ensures BlocksApart(setup.certificates[i])
  {
  }

  /** Publishing one certificate leaves the names of the others alone. */
  lemma OthersStillShow(setup: Setup, zone: map<string, Log>, after: map<string, Log>, i: nat, leaf: Leaf, k: nat,
                        other: Leaf)
    requires Safety.Separate(setup) && i < |setup.certificates| && k < |setup.certificates| && i != k
    requires Shows(setup.hash, zone, setup.certificates[k], other)
    requires OnlyShown(setup.hash, zone, after, setup.certificates[i], leaf)
    ensures Shows(setup.hash, after, setup.certificates[k], other)
  {
    var cert := setup.certificates[k];
    forall l: nat, name | l < |cert.dane| && IsSite(cert, l, name) ensures LogOf(after, name) == LogOf(zone, name) {
      forall j: nat | j < |setup.certificates[i].dane|
        ensures !Names.Denotes(setup.certificates[i].dane[j].names, name)
      {
        var names := setup.certificates[i].dane[j].names;
        if Names.Denotes(names, name) {
          var t :| 0 <= t < |names| && Names.Canonical(names[t]) == Names.Canonical(name);
          assert IsSite(setup.certificates[i], j, names[t]);
        }
      }
    }
  }

  lemma EarlierStillShow(setup: Setup, certs: map<string, Leaf>, zone: map<string, Log>, after: map<string, Log>,
                         filter: Option<string>, i: nat)
    requires Safety.Separate(setup) && ChosenShow(setup, certs, zone, filter, i)
    requires Chosen(setup, filter, i) && setup.certificates[i].certPath in certs
    requires OnlyShown(setup.hash, zone, after, setup.certificates[i], certs[setup.certificates[i].certPath])
    ensures ChosenShow(setup, certs, after, filter, i)
    ensures ShowsFile(setup, certs, after, i) ==> ChosenShow(setup, certs, after, filter, i + 1)
  {
    forall k: nat | k < i && Chosen(setup, filter, k) ensures ShowsFile(setup, certs, after, k) {
      assert ShowsFile(setup, certs, zone, k);
      OthersStillShow(setup, zone, after, i, certs[setup.certificates[i].certPath], k,
                      certs[setup.certificates[k].certPath]);
    }
  }

  /** The blocks of one certificate; here, unlike after a renewal, the first failure ends it. */
  method PublishBlocks(w: World, cert: Certificate, i: nat, leaf: Leaf) returns (ok: bool)
    requires w.Valid() && MayPublish(w.setup, w.Cur(), i, leaf) && cert == w.setup.certificates[i]
    requires forall j :: 0 <= j < |cert.dane| ==> cert.dane[j].names != []
    modifies w
    ensures w.Valid() && PublishedOnly(w, i)
    ensures OnlyShown(w.setup.hash, old(w.zone), w.zone, cert, leaf)
    ensures ok && BlocksApart(cert) ==> Shows(w.setup.hash, w.zone, cert, leaf)
    ensures w.reliable ==> ok
  {
    for j := 0 to |cert.dane|
      invariant w.Valid() && PublishedOnly(w, i)
      invariant OnlyShown(w.setup.hash, old(w.zone), w.zone, cert, leaf)
      invariant BlocksApart(cert) ==> ShowsUpTo(w.setup.hash, w.zone, cert, leaf, j)
    {
      var records := ComputeRecords(w.setup.hash, leaf, cert.dane[j]);
      var happens, connected := w.Fate();
      if !connected {
        return false;
      }
      ghost var zone := w.zone;
      ok := PublishTlsa(w, i, j, cert.dane[j], records[0], leaf);
      OnlyShownOneMore(w.setup.hash, old(w.zone), zone, w.zone, cert, leaf, j);
      if !ok {
        return;
      }
      if BlocksApart(cert) {
        ShowsOneMore(w.setup.hash, zone, w.zone, cert, leaf, j);
      }
    }
    ok := true;
  }

  /** What `dane-publish` does for one certificate. */
  ghost predicate OnePublished(setup: Setup, certs: map<string, Leaf>, before: map<string, Log>, after: map<string,
                               Log>,
                               i: nat, dryRun: bool, ok: bool)
    requires i < |setup.certificates|
  {
    var cert := setup.certificates[i];
    && (dryRun ==> after == before)
    && (after == before || (cert.certPath in certs && OnlyShown(setup.hash, before, after, cert, certs[cert.certPath])))
    && (ok ==> cert.certPath in certs)
    && (ok && !dryRun && BlocksApart(cert) ==> ShowsFile(setup, certs, after, i))
  }

  /** One certificate of `dane-publish`, with the error path of an unreadable file. */
  method PublishCertificate(w: World, c: Configuration, i: nat, filter: Option<string>, dryRun: bool) returns (ok: bool)
    requires w.Valid() && w.process.Down? && w.setup.certificates == c.certificates
    requires Validation.AllNamed(c.certificates)
    requires Chosen(w.setup, filter, i)
    modifies w
    ensures w.Valid() && PublishedOnly(w, i)
    ensures OnePublished(w.setup, w.certs, old(w.zone), w.zone, i, dryRun, ok)
    ensures w.reliable ==> (ok <==> c.certificates[i].certPath in w.certs)
  {
    var cert := c.certificates[i];
    var leaf := w.LoadCertificate(cert.certPath);
    if leaf.None? {
      return false;
    }
    if dryRun {
      return true;
    }
    ok := PublishBlocks(w, cert, i, leaf.value);
  }

  /** What the loop of `dane-publish` has achieved after `n` certificates. */
  ghost predicate PublishedSoFar(setup: Setup, certs: map<string, Leaf>, zone0: map<string, Log>, zone: map<string,
                                 Log>,
                                 filter: Option<string>, dryRun: bool, n: nat)
  {
    && (dryRun ==> zone == zone0)
    && OnlyChosenShown(setup, certs, zone0, zone, filter, n)
    && (!dryRun && Safety.Separate(setup) ==> ChosenShow(setup, certs, zone, filter, n))
    && AllChosenReadable(setup, certs, filter, n)
  }

  lemma PublishedOneMore(setup: Setup, certs: map<string, Leaf>, zone0: map<string, Log>, zone: map<string, Log>,
                         after: map<string, Log>,
                         filter: Option<string>, dryRun: bool, i: nat, ok: bool)
    requires Chosen(setup, filter, i) && PublishedSoFar(setup, certs, zone0, zone, filter, dryRun, i)
    requires OnePublished(setup, certs, zone, after, i, dryRun, ok)
    ensures (dryRun ==> after == zone0) && OnlyChosenShown(setup, certs, zone0, after, filter, i + 1)
    ensures !dryRun && Safety.Separate(setup) ==> ChosenShow(setup, certs, after, filter, i)
    ensures ok ==> PublishedSoFar(setup, certs, zone0, after, filter, dryRun, i + 1)
  {
    hide BlocksApart, OnlyShown, OnlyChosenShown, ShowsFile, Safety.Separate;
    OneCertificateMore(setup, certs, zone0, zone, after, filter, i);
    if !dryRun && Safety.Separate(setup) {
      SeparateBlocksApart(setup, i);
      if after != zone {
        EarlierStillShow(setup, certs, zone, after, filter, i);
      }
    }
  }

  lemma PassedOver(setup: Setup, certs: map<string, Leaf>, zone0: map<string, Log>, zone: map<string, Log>,
                   filter: Option<string>, dryRun: bool, i: nat)
    requires !Chosen(setup, filter, i) && PublishedSoFar(setup, certs, zone0, zone, filter, dryRun, i)
    ensures PublishedSoFar(setup, certs, zone0, zone, filter, dryRun, i + 1)
  {
  }

  /** The chosen certificates with a pre-published block and a rotation pending. */
  function PendingChosen(setup: Setup, filter: Option<string>, s: Sys): set<nat> {
    set i: nat | i < |setup.certificates| && Chosen(setup, filter, i) && !Safety.MayReplace(setup, s, i)
  }

  /** A publication in progress: only time passed and the name server changed, no hook was started,
      and what was guarded still is, but for the chosen certificates with a rotation pending. */
  twostate predicate ChosenPublishedOnly(w: World, filter: Option<string>)
    reads w
  {
    && OnlyZoneChanged(old(w.Cur()), w.Cur()) && NoHooks(w)
    && KeptExcept(w, {}, PendingChosen(w.setup, filter, old(w.Cur())))
  }

  /** One round of the loop over the certificates. */
  method PublishNext(w: World, c: Configuration, i: nat, filter: Option<string>, dryRun: bool,
                     ghost zone0: map<string, Log>)
    returns (ok: bool)
    requires w.Valid() && w.process.Down? && w.setup.certificates == c.certificates
    requires Validation.AllNamed(c.certificates)
    requires i < |c.certificates| && PublishedSoFar(w.setup, w.certs, zone0, w.zone, filter, dryRun, i)
    modifies w
    ensures w.Valid() && ChosenPublishedOnly(w, filter)
    ensures (dryRun ==> w.zone == zone0) && OnlyChosenShown(w.setup, w.certs, zone0, w.zone, filter, i + 1)
    ensures !dryRun && Safety.Separate(w.setup) ==> ChosenShow(w.setup, w.certs, w.zone, filter, i)
    ensures ok ==> PublishedSoFar(w.setup, w.certs, zone0, w.zone, filter, dryRun, i + 1)
    ensures w.reliable ==> (ok <==> AllChosenReadable(w.setup, w.certs, filter, i + 1))
    ensures !ok ==> Chosen(w.setup, filter, i)
  {
    hide OnePublished, OnlyChosenShown, ChosenShow, ShowsFile, Safety.Separate, Safety.Guarded, Safety.KeptApart, Exec;
    if !Selected(filter, c.certificates[i]) || c.certificates[i].dane == [] {
      PassedOver(w.setup, w.certs, zone0, w.zone, filter, dryRun, i);
      return true;
    }
    ghost var zone := w.zone;
    ok := PublishCertificate(w, c, i, filter, dryRun);
    PublishedOneMore(w.setup, w.certs, zone0, zone, w.zone, filter, dryRun, i, ok);
  }

  lemma ReadableSoFar(setup: Setup, certs: map<string, Leaf>, filter: Option<string>, n: nat)
    requires n <= |setup.certificates| && !AllChosenReadable(setup, certs, filter, n)
    ensures !AllChosenReadable(setup, certs, filter, |setup.certificates|)
  {
  }

  /** A name of one of the first `n` certificates, if that is asked for. */
  ghost predicate NamedByAsked(certs: seq<Certificate>, filter: Option<string>, n: nat, m: string) {
    exists i: nat :: i < n && Asked(certs, filter, i) && PlainRun.HasName(certs[i], m)
  }

  /** In the words of the command line. The certificates asked for are gone through in order; `done` of
      all were, and these show their certificate's records; if that is not all of them, the next one
      failed and no name of a later one was touched. On a reliable network none fails exactly when
      all that are asked for have a file. */
  ghost predicate PublishedAsAsked(setup: Setup, certs: map<string, Leaf>, before: map<string, Log>,
                                   after: map<string, Log>, filter: Option<string>, reliable: bool, dryRun: bool,
                                   ok: bool, done: nat)
  {
    && done <= |setup.certificates| && (ok <==> done == |setup.certificates|)
    && (dryRun ==> after == before)
    && (forall m :: LogOf(after, m) == LogOf(before, m) || NamedByAsked(setup.certificates, filter, done + 1, m))
    && (!ok ==> Asked(setup.certificates, filter, done))
    && (reliable ==>
          (ok <==> forall i: nat :: Asked(setup.certificates, filter, i) ==> setup.certificates[i].certPath in certs))
    && (!dryRun && Safety.Separate(setup) ==>
          forall i: nat :: i < done && Asked(setup.certificates, filter, i) ==> ShowsFile(setup, certs, after, i))
  }

  lemma PublicationIsPlain(setup: Setup, certs: map<string, Leaf>, before: map<string, Log>, after: map<string, Log>,
                           filter: Option<string>, reliable: bool, dryRun: bool, ok: bool, done: nat)
    requires done <= |setup.certificates| && (ok <==> done == |setup.certificates|)
    requires (!ok ==> Chosen(setup, filter, done)) && (dryRun ==> after == before)
    requires OnlyChosenShown(setup, certs, before, after, filter, done + 1)
    requires !dryRun && Safety.Separate(setup) ==> ChosenShow(setup, certs, after, filter, done)
    requires reliable ==> (ok <==> AllChosenReadable(setup, certs, filter, |setup.certificates|))
    ensures PublishedAsAsked(setup, certs, before, after, filter, reliable, dryRun, ok, done)
  {
    hide ShowsFile, Safety.Separate, Selected;
    ChosenIsAsked(setup, filter);
    forall m | LogOf(after, m) != LogOf(before, m)
      ensures NamedByAsked(setup.certificates, filter, done + 1, m)
    {
      var i: nat, j: nat :| i < done + 1 && NamedBy(setup, filter, i, j, m);
      var cert := setup.certificates[i];
      var l :| 0 <= l < |cert.dane[j].names| && Names.Canonical(cert.dane[j].names[l]) == Names.Canonical(m);
      assert PlainRun.HasName(cert, m);
    }
  }

  /** The loop over the certificates. */
  method PublishChosen(w: World, c: Configuration, isIp: Validation.IpTest, filter: Option<string>, dryRun: bool)
    returns (ok: bool, done: nat)
    requires w.Valid() && w.process.Down? && w.setup.certificates == c.certificates && Validation.ValidConfig(c, isIp)
    modifies w
    ensures w.Valid() && ChosenPublishedOnly(w, filter)
    ensures done <= |c.certificates| && (ok <==> done == |c.certificates|) && (!ok ==> Chosen(w.setup, filter, done))
    ensures dryRun ==> w.zone == old(w.zone)
    ensures OnlyChosenShown(w.setup, w.certs, old(w.zone), w.zone, filter, done + 1)
    ensures !dryRun && Safety.Separate(w.setup) ==> ChosenShow(w.setup, w.certs, w.zone, filter, done)
    ensures w.reliable ==> (ok <==> AllChosenReadable(w.setup, w.certs, filter, |c.certificates|))
  {
    hide OnlyChosenShown, ChosenShow, AllChosenReadable, Validation.ValidConfig;
    hide Safety.Separate, Safety.Guarded, Safety.KeptApart, Exec;
    ghost var zone0 := w.zone;
    Validation.ValidIsNamed(c, isIp);
    NothingPublished(w.setup, w.certs, w.zone, filter, dryRun);
    done := 0;
    while done < |c.certificates|
      invariant done <= |c.certificates| && w.Valid() && ChosenPublishedOnly(w, filter)
      invariant PublishedSoFar(w.setup, w.certs, zone0, w.zone, filter, dryRun, done)
    {
      ok := PublishNext(w, c, done, filter, dryRun, zone0);
      if !ok {
        if w.reliable {
          ReadableSoFar(w.setup, w.certs, filter, done + 1);
        }
        return;
      }
      done := done + 1;
    }
    ok := true;
    MoreShown(w.setup, w.certs, zone0, w.zone, filter, done);
  }

  lemma MoreShown(setup: Setup, certs: map<string, Leaf>, before: map<string, Log>, after: map<string, Log>,
                  filter: Option<string>, n: nat)
    requires OnlyChosenShown(setup, certs, before, after, filter, n)
    ensures OnlyChosenShown(setup, certs, before, after, filter, n + 1)
  {
  }

  /** `dane_publish`. On success every chosen certificate's names show exactly its records; the first
      failure ends it; a dry run changes nothing. */
  method DanePublish(w: World, c: Configuration, isIp: Validation.IpTest, filter: Option<string>, dryRun: bool)
    returns (ok: bool, done: nat)
    requires w.Valid() && w.process.Down? && w.setup.certificates == c.certificates && Validation.ValidConfig(c, isIp)
    modifies w
    ensures w.Valid() && ChosenPublishedOnly(w, filter)
    ensures done <= |c.certificates| && OnlyChosenShown(w.setup, w.certs, old(w.zone), w.zone, filter, done + 1)
    ensures ok && !dryRun && Safety.Separate(w.setup) ==> ChosenShow(w.setup, w.certs, w.zone, filter, |c.certificates|)
    ensures PublishedAsAsked(w.setup, w.certs, old(w.zone), w.zone, filter, w.reliable, dryRun, ok, done)
  {
    ok, done := PublishChosen(w, c, isIp, filter, dryRun);
    hide *;
    PublicationIsPlain(w.setup, w.certs, old(w.zone), w.zone, filter, w.reliable, dryRun, ok, done);
  }

  lemma NothingPublished(setup: Setup, certs: map<string, Leaf>, zone: map<string, Log>, filter: Option<string>,
                         dryRun: bool)
    ensures PublishedSoFar(setup, certs, zone, zone, filter, dryRun, 0)
  {
  }

  /** Publication of a block, and what any client that asks for one of its names is then sent: records
      that say on the wire, and to a resolver library, what the block says of the certificate. */
  method PublishAndAnswer(w: World, i: nat, j: nat, block: Dane, leaf: Leaf, name: string)
    returns (ok: bool, wires: seq<Bytes>)
    requires w.Valid() && MayPublish(w.setup, w.Cur(), i, leaf)
    requires j < |w.setup.certificates[i].dane| && block == w.setup.certificates[i].dane[j] && name in block.names
    modifies w
    ensures w.Valid() && PublishedOnly(w, i)
    ensures ok ==> wires != [] && forall wire :: wire in wires ==>
                     && OnTheWire(w.setup.hash, leaf.der, leaf.spki, block, wire)
                     && Decode(wire).Some? && ReadAs(w.setup.hash, leaf.der, leaf.spki, block, Decode(wire).value)
    ensures w.reliable ==> ok
  {
    var records := ComputeRecords(w.setup.hash, leaf, block);
    ok := PublishTlsa(w, i, j, block, records[0], leaf);
    wires := w.AnswerTlsa(name);
    if ok {
      assert Current(LogOf(w.zone, name)) == {records[0]} && Encode(ToRData(records[0])) in wires;
      CertificateOnTheWire(w.setup.hash, leaf, block);
    }
  }

  // ----- dane-check -----

  datatype Status = Fine | Missing | Mismatch | QueryFailed

  /** One line of the report. */
  datatype Line = Line(i: nat, j: nat, name: string, status: Status)

  /** What a status claims about the RRset. */
  predicate Tells(status: Status, rrset: set<Record>, expected: Record) {
    match status
    case Fine => expected in rrset
    case Missing => rrset == {}
    case Mismatch => rrset != {} && expected !in rrset
    case QueryFailed => true
  }

  /** The line is about a TLSA name of a readable certificate, and true of it. */
  predicate True(setup: Setup, certs: map<string, Leaf>, zone: map<string, Log>, l: Line) {
    && l.i < |setup.certificates| && IsSite(setup.certificates[l.i], l.j, l.name)
    && setup.certificates[l.i].certPath in certs
    && Tells(l.status, Current(LogOf(zone, l.name)),
             FromCertificate(setup.hash, certs[setup.certificates[l.i].certPath], setup.certificates[l.i].dane[l.j]))
  }

  predicate Listed(report: seq<Line>, i: nat, j: nat, name: string) {
    exists k :: 0 <= k < |report| && report[k].i == i && report[k].j == j && report[k].name == name
  }

  predicate AllFine(report: seq<Line>) {
    forall k :: 0 <= k < |report| ==> report[k].status == Fine
  }

  /** All lines are about certificate `i`. */
  predicate AllAbout(report: seq<Line>, i: nat) {
    forall k :: 0 <= k < |report| ==> report[k].i == i
  }

  predicate Sound(w: World, report: seq<Line>)
    reads w
  {
    forall k :: 0 <= k < |report| ==>
      True(w.setup, w.certs, w.zone, report[k]) && (w.reliable ==> report[k].status != QueryFailed)
  }

  /** Every TLSA name of the first `n` blocks has its line. */
  ghost predicate ListsBlocks(cert: Certificate, report: seq<Line>, i: nat, n: nat) {
    forall j: nat, name :: j < n && IsSite(cert, j, name) ==> Listed(report, i, j, name)
  }

  /** Every TLSA name of the certificates that were read has its line. */
  ghost predicate ListsRead(setup: Setup, read: set<nat>, report: seq<Line>) {
    forall i :: i in read && i < |setup.certificates| ==>
      ListsBlocks(setup.certificates[i], report, i, |setup.certificates[i].dane|)
  }

  lemma ListedStays(report: seq<Line>, more: seq<Line>, i: nat, j: nat, name: string)
    requires Listed(report, i, j, name)
    ensures Listed(report + more, i, j, name)
  {
    var k :| 0 <= k < |report| && report[k].i == i && report[k].j == j && report[k].name == name;
    assert (report + more)[k] == report[k];
  }

  lemma ListsStay(setup: Setup, read: set<nat>, report: seq<Line>, more: seq<Line>)
    requires ListsRead(setup, read, report)
    ensures ListsRead(setup, read, report + more)
  {
    forall i, j: nat, name | i in read && i < |setup.certificates|
        && j < |setup.certificates[i].dane| && IsSite(setup.certificates[i], j, name)
      ensures Listed(report + more, i, j, name)
    {
      ListedStays(report, more, i, j, name);
    }
  }

  /** One name: query, then compare with the expected record. */
  method CheckName(w: World, name: string, expected: Record) returns (status: Status)
    ensures Tells(status, Current(LogOf(w.zone, name)), expected)
    ensures w.reliable ==> status != QueryFailed
  {
    var answer := w.QueryTlsa(name);
    if answer.None? {
      return QueryFailed;
    }
    if answer.value == [] {
      return Missing;
    }
    assert answer.value[0] in Current(LogOf(w.zone, name));
    status := if expected in answer.value then Fine else Mismatch;
  }

  /** One block, unless the name server cannot be reached. */
  method CheckBlock(w: World, i: nat, j: nat, cert: Certificate, leaf: Leaf)
    returns (lines: Option<seq<Line>>, fine: bool)
    requires i < |w.setup.certificates| && cert == w.setup.certificates[i] && j < |cert.dane|
    requires cert.dane[j].names != []
    requires cert.certPath in w.certs && leaf == w.certs[cert.certPath]
    ensures lines.Some? ==> Sound(w, lines.value) && AllAbout(lines.value, i) && (fine <==> AllFine(lines.value))
    ensures lines.Some? ==> forall name :: IsSite(cert, j, name) ==> Listed(lines.value, i, j, name)
    ensures w.reliable ==> lines.Some?
  {
    fine := true;
    StartOfReport(w);
    hide AllFine, Sound;
    var names := cert.dane[j].names;
    var expected := ComputeRecords(w.setup.hash, leaf, cert.dane[j]);
    var happens, connected := w.Fate();
    if !connected {
      return None, fine;
    }
    var all: seq<Line> := [];
    for k := 0 to |names|
      invariant |all| == k && Sound(w, all) && (fine <==> AllFine(all))
      invariant forall l :: 0 <= l < k ==> all[l].i == i && all[l].j == j && all[l].name == names[l]
    {
      var status := CheckName(w, names[k], expected[0]);
      var line := Line(i, j, names[k], status);
      OneMoreLine(w, all, line);
      all := all + [line];
      if status != Fine {
        fine := false;
      }
    }
    lines := Some(all);
  }

  lemma StartOfReport(w: World)
    ensures Sound(w, []) && AllFine([])
  {
  }

  lemma OneMoreLine(w: World, report: seq<Line>, line: Line)
    requires Sound(w, report) && line.i < |w.setup.certificates| && (w.reliable ==> line.status != QueryFailed)
    requires var cert := w.setup.certificates[line.i];
             && IsSite(cert, line.j, line.name) && cert.certPath in w.certs
             && Tells(line.status, Current(LogOf(w.zone, line.name)),
                      FromCertificate(w.setup.hash, w.certs[cert.certPath], cert.dane[line.j]))
    ensures Sound(w, report + [line])
    ensures AllFine(report + [line]) <==> AllFine(report) && line.status == Fine
  {
    assert [line][0] == line;
    FineSoFar(report, [line]);
  }

  lemma FineSoFar(report: seq<Line>, more: seq<Line>)
    ensures AllFine(report + more) <==> AllFine(report) && AllFine(more)
  {
    if AllFine(report + more) {
      assert forall k :: 0 <= k < |report| ==> (report + more)[k] == report[k];
      assert forall k :: 0 <= k < |more| ==> (report + more)[|report| + k] == more[k];
    }
  }

  /** One certificate; without a readable file there is nothing to compare, which the command
      does not count as a failure. */
  method CheckCertificate(w: World, i: nat, cert: Certificate)
    returns (lines: Option<seq<Line>>, fine: bool, read: bool)
    requires i < |w.setup.certificates| && cert == w.setup.certificates[i]
    requires forall j :: 0 <= j < |cert.dane| ==> cert.dane[j].names != []
    ensures lines.Some? ==> Sound(w, lines.value) && AllAbout(lines.value, i) && (fine <==> AllFine(lines.value))
    ensures lines.Some? && read ==> cert.certPath in w.certs && ListsBlocks(cert, lines.value, i, |cert.dane|)
    ensures lines.Some? && !read ==> lines.value == []
    ensures w.reliable ==> lines.Some? && (read <==> cert.certPath in w.certs)
  {
    fine := true;
    var loaded := w.LoadCertificate(cert.certPath);
    read := loaded.Some?;
    var all: seq<Line> := [];
    for j := 0 to |cert.dane|
      invariant Sound(w, all) && AllAbout(all, i) && (fine <==> AllFine(all))
      invariant if loaded.Some? then ListsBlocks(cert, all, i, j) else all == []
    {
      if loaded.None? {
        continue;
      }
      var more, fineToo := CheckBlock(w, i, j, cert, loaded.value);
      if more.None? {
        return None, fine, read;
      }
      ListsOneMore(cert, all, more.value, i, j);
      FineSoFar(all, more.value);
      all := all + more.value;
      fine := fine && fineToo;
    }
    lines := Some(all);
  }

  lemma ListsOneMore(cert: Certificate, report: seq<Line>, more: seq<Line>, i: nat, j: nat)
    requires ListsBlocks(cert, report, i, j) && forall name :: IsSite(cert, j, name) ==> Listed(more, i, j, name)
    ensures ListsBlocks(cert, report + more, i, j + 1)
  {
    forall l: nat, name | l < j + 1 && IsSite(cert, l, name) ensures Listed(report + more, i, l, name) {
      if l < j {
        ListedStays(report, more, i, l, name);
      } else {
        ListedInTail(report, more, i, l, name);
      }
    }
  }

  lemma ListedInTail(report: seq<Line>, more: seq<Line>, i: nat, j: nat, name: string)
    requires Listed(more, i, j, name)
    ensures Listed(report + more, i, j, name)
  {
    var k :| 0 <= k < |more| && more[k].i == i && more[k].j == j && more[k].name == name;
    assert (report + more)[|report| + k] == more[k];
  }

  lemma ListsOneMoreCertificate(setup: Setup, read: set<nat>, report: seq<Line>, more: seq<Line>, i: nat)
    requires ListsRead(setup, read, report) && i < |setup.certificates|
    requires ListsBlocks(setup.certificates[i], more, i, |setup.certificates[i].dane|)
    ensures ListsRead(setup, read + {i}, report + more)
  {
    ListsStay(setup, read, report, more);
    var cert := setup.certificates[i];
    forall j: nat, name | j < |cert.dane| && IsSite(cert, j, name) ensures Listed(report + more, i, j, name) {
      ListedInTail(report, more, i, j, name);
    }
  }

  /** The certificates the check can compare with. */
  predicate Comparable(setup: Setup, certs: map<string, Leaf>, filter: Option<string>, i: nat) {
    Chosen(setup, filter, i) && setup.certificates[i].certPath in certs
  }

  /** Every TLSA name of these certificates holds the expected record. */
  ghost predicate InOrderOf(setup: Setup, certs: map<string, Leaf>, zone: map<string, Log>, read: set<nat>) {
    forall i, j: nat, name ::
      && i in read && i < |setup.certificates|
      && setup.certificates[i].certPath in certs && IsSite(setup.certificates[i], j, name) ==>
        FromCertificate(setup.hash, certs[setup.certificates[i].certPath], setup.certificates[i].dane[j])
          in Current(LogOf(zone, name))
  }

  /** Every TLSA name of every chosen certificate that has a file holds the expected record. */
  ghost predicate InOrder(setup: Setup, certs: map<string, Leaf>, zone: map<string, Log>, filter: Option<string>) {
    forall i: nat, j: nat, name ::
      && Chosen(setup, filter, i) && setup.certificates[i].certPath in certs
      && IsSite(setup.certificates[i], j, name) ==>
        FromCertificate(setup.hash, certs[setup.certificates[i].certPath], setup.certificates[i].dane[j])
          in Current(LogOf(zone, name))
  }

  /** What is known of the report on the first `n` certificates, of which `read` were read. */
  ghost predicate ReportOn(w: World, filter: Option<string>, read: set<nat>, report: seq<Line>, n: nat)
    reads w
  {
    && Sound(w, report) && (forall k :: 0 <= k < |report| ==> report[k].i in read)
    && ListsRead(w.setup, read, report)
    && (forall i :: i in read ==> i < n && Comparable(w.setup, w.certs, filter, i))
    && (w.reliable ==> forall i: nat :: i < n && Comparable(w.setup, w.certs, filter, i) ==> i in read)
  }

  lemma ReportGrows(w: World, filter: Option<string>, read: set<nat>, report: seq<Line>, more: seq<Line>, i: nat)
    requires ReportOn(w, filter, read, report, i) && i < |w.setup.certificates| && Sound(w, more) && AllAbout(more, i)
    requires Comparable(w.setup, w.certs, filter, i)
    requires ListsBlocks(w.setup.certificates[i], more, i, |w.setup.certificates[i].dane|)
    ensures ReportOn(w, filter, read + {i}, report + more, i + 1)
  {
    ListsOneMoreCertificate(w.setup, read, report, more, i);
  }

  lemma ReportStays(w: World, filter: Option<string>, read: set<nat>, report: seq<Line>, i: nat)
    requires ReportOn(w, filter, read, report, i) && (w.reliable ==> !Comparable(w.setup, w.certs, filter, i))
    ensures ReportOn(w, filter, read, report, i + 1)
  {
  }

  /** One round of the loop over the certificates. */
  method CheckNext(w: World, c: Configuration, filter: Option<string>, i: nat, read: set<nat>, report: seq<Line>,
                   ok: bool)
    returns (longer: Option<seq<Line>>, more: set<nat>, still: bool)
    requires w.setup.certificates == c.certificates && Validation.AllNamed(c.certificates) && i < |c.certificates|
    requires ReportOn(w, filter, read, report, i) && (ok <==> AllFine(report))
    ensures longer.Some? ==> ReportOn(w, filter, more, longer.value, i + 1) && (still <==> AllFine(longer.value))
    ensures w.reliable ==> longer.Some?
  {
    var cert := c.certificates[i];
    if !Selected(filter, cert) || cert.dane == [] {
      ReportStays(w, filter, read, report, i);
      return Some(report), read, ok;
    }
    var lines, fine, loaded := CheckCertificate(w, i, cert);
    if lines.None? {
      return None, read, ok;
    }
    if !loaded {
      ReportStays(w, filter, read, report, i);
      return Some(report), read, ok;
    }
    ReportGrows(w, filter, read, report, lines.value, i);
    FineSoFar(report, lines.value);
    return Some(report + lines.value), read + {i}, ok && fine;
  }

  lemma NothingReported(w: World, filter: Option<string>)
    ensures ReportOn(w, filter, {}, [], 0) && AllFine([])
  {
  }

  predicate NoneFailed(report: seq<Line>) {
    forall k :: 0 <= k < |report| ==> report[k].status != QueryFailed
  }

  /** The verdict of a whole report: it is that all lines are fine, and if no query failed, it is
      that every name of every certificate read is in order. With every call succeeding the
      report is whole. */
  ghost predicate Verdict(w: World, filter: Option<string>, read: set<nat>, allOk: Option<bool>, report: seq<Line>)
    reads w
  {
    && (allOk.Some? ==>
          && ReportOn(w, filter, read, report, |w.setup.certificates|) && (allOk.value <==> AllFine(report))
          && (NoneFailed(report) ==> (allOk.value <==> InOrderOf(w.setup, w.certs, w.zone, read))))
    && (w.reliable ==>
          && allOk.Some? && NoneFailed(report) && (allOk.value <==> InOrder(w.setup, w.certs, w.zone, filter))
          && forall i: nat :: Comparable(w.setup, w.certs, filter, i) ==> i in read)
  }

  lemma FineIsInOrder(w: World, filter: Option<string>, read: set<nat>, report: seq<Line>)
    requires ReportOn(w, filter, read, report, |w.setup.certificates|) && NoneFailed(report)
    ensures AllFine(report) <==> InOrderOf(w.setup, w.certs, w.zone, read)
  {
    if AllFine(report) {
      forall i, j: nat, name | i in read && i < |w.setup.certificates| && w.setup.certificates[i].certPath in w.certs
          && IsSite(w.setup.certificates[i], j, name)
        ensures FromCertificate(w.setup.hash, w.certs[w.setup.certificates[i].certPath],
                  w.setup.certificates[i].dane[j])
                  in Current(LogOf(w.zone, name))
      {
        assert Listed(report, i, j, name);
        var k :| 0 <= k < |report| && report[k].i == i && report[k].j == j && report[k].name == name;
        assert True(w.setup, w.certs, w.zone, report[k]);
      }
    }
    if InOrderOf(w.setup, w.certs, w.zone, read) {
      forall k | 0 <= k < |report| ensures report[k].status == Fine {
        assert True(w.setup, w.certs, w.zone, report[k]);
      }
    }
  }

  lemma VerdictReached(w: World, filter: Option<string>, read: set<nat>, ok: bool, report: seq<Line>)
    requires ReportOn(w, filter, read, report, |w.setup.certificates|) && (ok <==> AllFine(report))
    ensures Verdict(w, filter, read, Some(ok), report)
  {
    if NoneFailed(report) {
      FineIsInOrder(w, filter, read, report);
    }
    if w.reliable {
      assert NoneFailed(report);
      assert InOrderOf(w.setup, w.certs, w.zone, read) <==> InOrder(w.setup, w.certs, w.zone, filter);
    }
  }

  /** `dane_check`: one true line for every TLSA name of every certificate read, and the verdict is
      that all of them are fine. It changes nothing. */
  method DaneCheck(w: World, c: Configuration, isIp: Validation.IpTest, filter: Option<string>)
    returns (allOk: Option<bool>, read: set<nat>, report: seq<Line>)
    requires w.setup.certificates == c.certificates && Validation.ValidConfig(c, isIp)
    ensures Verdict(w, filter, read, allOk, report)
    ensures allOk.Some? ==> ReportedAsAsked(w, filter, report)
  {
    read, report := {}, [];
    var ok := true;
    Validation.ValidIsNamed(c, isIp);
    NothingReported(w, filter);
    hide ReportOn, AllFine, Validation.ValidConfig;
    for i := 0 to |c.certificates|
      invariant ReportOn(w, filter, read, report, i) && (ok <==> AllFine(report))
    {
      var longer;
      longer, read, ok := CheckNext(w, c, filter, i, read, report, ok);
      if longer.None? {
        return None, read, report;
      }
      report := longer.value;
    }
    allOk := Some(ok);
    VerdictReached(w, filter, read, ok, report);
    ReportIsPlain(w, filter, read, report);
  }

  /** In the words of the command line: the lines are about certificates asked for, and on a reliable
      network every TLSA name of those with a file has its line. */
  ghost predicate ReportedAsAsked(w: World, filter: Option<string>, report: seq<Line>)
    reads w
  {
    var certs := w.setup.certificates;
    && (forall k :: 0 <= k < |report| ==> Asked(certs, filter, report[k].i))
    && (w.reliable ==>
          forall i: nat, j: nat, l: nat ::
            Asked(certs, filter, i) && certs[i].certPath in w.certs
            && j < |certs[i].dane| && l < |certs[i].dane[j].names| ==>
              Listed(report, i, j, certs[i].dane[j].names[l]))
  }

  lemma ReportIsPlain(w: World, filter: Option<string>, read: set<nat>, report: seq<Line>)
    requires ReportOn(w, filter, read, report, |w.setup.certificates|)
    ensures ReportedAsAsked(w, filter, report)
  {
    ChosenIsAsked(w.setup, filter);
  }

  /** A report on names that show their records has no line that says otherwise, and is positive
      unless a query failed. */
  lemma ShownIsReported(w: World, filter: Option<string>, read: set<nat>, allOk: Option<bool>, report: seq<Line>)
    requires ChosenShow(w.setup, w.certs, w.zone, filter, |w.setup.certificates|)
    requires Verdict(w, filter, read, allOk, report)
    ensures w.reliable ==> allOk == Some(true)
    ensures allOk.Some? ==>
              forall k :: 0 <= k < |report| ==> report[k].status == Fine || report[k].status == QueryFailed
    ensures allOk.Some? && NoneFailed(report) ==> allOk == Some(true)
  {
    if allOk.Some? {
      forall k | 0 <= k < |report| ensures report[k].status == Fine || report[k].status == QueryFailed {
        assert True(w.setup, w.certs, w.zone, report[k]);
        assert ShowsFile(w.setup, w.certs, w.zone, report[k].i);
      }
    }
  }

  /** Publish, then check: over certificates and blocks with separate TLSA names, a publication
      that reported success is found in order by a finished check unless one of its queries failed;
      its report has a line for every name of every certificate it read, and no line says
      otherwise. */
  method PublishThenCheck(w: World, c: Configuration, isIp: Validation.IpTest, filter: Option<string>)
    returns (published: bool, allOk: Option<bool>, read: set<nat>, report: seq<Line>)
    requires w.Valid() && w.process.Down? && w.setup.certificates == c.certificates && Validation.ValidConfig(c, isIp)
    modifies w
    ensures w.Valid() && (allOk.Some? ==> ListsRead(w.setup, read, report))
    ensures published && Safety.Separate(w.setup) && w.reliable ==>
              allOk == Some(true) && forall i: nat :: Chosen(w.setup, filter, i) ==> i in read
    ensures published && Safety.Separate(w.setup) && allOk.Some? && NoneFailed(report) ==> allOk == Some(true)
    ensures published && Safety.Separate(w.setup) && allOk.Some? ==>
              forall k :: 0 <= k < |report| ==> report[k].status == Fine || report[k].status == QueryFailed
  {
    var done;
    published, done := DanePublish(w, c, isIp, filter, false);
    hide Safety.Separate, Validation.ValidConfig, Exec;
    allOk, read, report := DaneCheck(w, c, isIp, filter);
    if published && Safety.Separate(w.setup) {
      ShownIsReported(w, filter, read, allOk, report);
    }
  }
}
