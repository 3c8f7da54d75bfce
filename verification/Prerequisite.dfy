/** What the add's prerequisite does to rotation. README.md:12 promises that new records are
    published alongside the old ones; the add is sent with "RRset does not exist", so a server
    that honours section 2.4.3 of RFC 2136 refuses it wherever an old record is. */
module Prerequisite {
  import opened Prelude
  import opened Expiry
  import opened History
  import opened Tlsa
  import opened Protocol
  import opened Safety

  /** Certificate `i` cannot get a pending entry: one of its pre-published names already has
      an RRset, and no rotation of it is under way. */
  ghost predicate Stuck(setup: Setup, s: Sys, i: nat, j: nat, name: string) {
    && setup.exclusiveAdd && Rotating(setup, i)
    && var c := setup.certificates[i];
       && IsPrePublishedSite(c, j, name)
       && Current(LogOf(s.disk.zone, name)) != {}
       && c.name !in s.disk.stateFile
       && (s.process.Up? ==>
             && c.name !in s.process.pending
             && match s.process.stage
                case Free => true
                case Publishing(k, _, added) => k == i ==> (j, name) !in added
                case Issuing(k, _) => k != i
                case Installed(k, _, _) => k != i)
  }

  predicate SameCertificate(setup: Setup, i: nat, s: Sys, t: Sys)
    requires i < |setup.certificates|
  {
    var path := setup.certificates[i].certPath;
    && (path in s.disk.certs <==> path in t.disk.certs)
    && (path in s.disk.certs ==> s.disk.certs[path] == t.disk.certs[path])
  }

  lemma StuckStep(setup: Setup, s: Sys, e: Event, i: nat, j: nat, name: string)
    requires Separate(setup) && Stuck(setup, s, i, j, name) && Enabled(setup, s, e)
    ensures Stuck(setup, Next(setup, s, e), i, j, name)
    ensures SameCertificate(setup, i, s, Next(setup, s, e))
  {
  }

  lemma {:induction false} StuckForever(setup: Setup, start: Sys, events: seq<Event>, i: nat, j: nat, name: string)
    requires Separate(setup) && Stuck(setup, start, i, j, name) && Exec(setup, start, events).Some?
    ensures Stuck(setup, Exec(setup, start, events).value, i, j, name)
    ensures SameCertificate(setup, i, start, Exec(setup, start, events).value)
  {
    if events != [] {
      var init := events[..|events| - 1];
      StuckForever(setup, start, init, i, j, name);
      StuckStep(setup, Exec(setup, start, init).value, events[|events| - 1], i, j, name);
    }
  }

  /** With the prerequisite in force, an installed certificate with a pre-published block is
      never renewed again: from any good start with no rotation under way, no run, forced or
      not, with or without failures, ever changes its file or saves an entry for it. */
  lemma InstalledNeverRotates(setup: Setup, start: Sys, s: Sys, i: nat, j: nat, name: string)
    requires Separate(setup) && GoodStart(setup, start, i) && Reachable(setup, start, s)
    requires setup.exclusiveAdd && Rotating(setup, i) && IsPrePublishedSite(setup.certificates[i], j, name)
    requires setup.certificates[i].certPath in start.disk.certs
    requires setup.certificates[i].name !in start.disk.stateFile
    ensures SameCertificate(setup, i, start, s)
    ensures setup.certificates[i].name !in s.disk.stateFile
  {
    var c := setup.certificates[i];
    var spki := start.disk.certs[c.certPath].spki;
    assert DiskInv(setup, start.disk, i);
    PresentIsCurrent(LogOf(start.disk.zone, name), FromSpki(setup.hash, spki, c.dane[j]),
                     start.disk.now - c.dane[j].ttl * NANOS);
    var events :| Exec(setup, start, events) == Some(s);
    StuckForever(setup, start, events, i, j, name);
  }
}
