/** Runs that do not finish a rotation they have taken up: what they leave behind, and which of it
    later runs repair. */
module Interrupted {
  import opened Prelude
  import opened Config
  import opened Expiry
  import opened History
  import opened Tlsa
  import opened Protocol
  import opened World
  import opened Liveness
  import opened Renew
  import opened Progress
  import opened Reports
  import opened Run
  import opened Safety
  import opened Series
  import Prerequisite
  import Validation

  // ----- A lost entry -----

  /** From a state with a true entry, the state that differs in nothing but that the entry is no
      longer saved is stuck when the prerequisite is in force: the rotation's own pre-published
      records make the server refuse every further add. */
  lemma LossIsStuck(setup: Setup, start: Sys, s: Sys, t: Sys, i: nat, j: nat, name: string)
    requires Separate(setup) && GoodStart(setup, start, i) && Reached(setup, start, s, i) && s.process.Down?
    requires setup.exclusiveAdd && Rotating(setup, i) && IsPrePublishedSite(setup.certificates[i], j, name)
    requires setup.certificates[i].name in s.disk.stateFile && setup.certificates[i].name !in t.disk.stateFile
    requires t.process.Down? && t.disk.zone == s.disk.zone
    ensures Prerequisite.Stuck(setup, t, i, j, name)
  {
    var c := setup.certificates[i];
    DaneContinuity(setup, start, s, i);
    assert DiskInv(setup, s.disk, i);
    var p := s.disk.stateFile[c.name];
    PresentIsCurrent(LogOf(s.disk.zone, name), FromSpki(setup.hash, s.disk.pendingKeys[p.keyPath].spki, c.dane[j]),
                     p.publishedAt);
  }

  /** So such a rotation is never resumed: no later run changes the certificate's file or saves an
      entry for it. */
  lemma LostRotationNeverResumes(setup: Setup, start: Sys, s: Sys, t: Sys, i: nat, j: nat, name: string,
                                 later: seq<Event>)
    requires Separate(setup) && GoodStart(setup, start, i) && Reached(setup, start, s, i) && s.process.Down?
    requires setup.exclusiveAdd && Rotating(setup, i) && IsPrePublishedSite(setup.certificates[i], j, name)
    requires setup.certificates[i].name in s.disk.stateFile && setup.certificates[i].name !in t.disk.stateFile
    requires t.process.Down? && t.disk.zone == s.disk.zone && Exec(setup, t, later).Some?
    ensures Prerequisite.SameCertificate(setup, i, t, Exec(setup, t, later).value)
    ensures setup.certificates[i].name !in Exec(setup, t, later).value.disk.stateFile
  {
    LossIsStuck(setup, start, s, t, i, j, name);
    Prerequisite.StuckForever(setup, t, later, i, j, name);
  }

  /** A dry run can do this. On a reliable network it loses the entry of certificate `i` exactly
      when it acts on that certificate and reports any certificate as renewed; and then, with the
      prerequisite in force, the rotation is stuck. */
  method RehearseOnce(w: World, c: Configuration, isIp: Validation.IpTest, filter: Option<string>, force: bool,
                      ghost i: nat, ghost j: nat, ghost name: string)
    returns (r: Result<(), RunError>, reports: seq<Report>)
    requires w.Valid() && w.process.Down? && w.setup.certificates == c.certificates && Validation.ValidConfig(c, isIp)
    requires w.reliable && i in Guarded(w.setup, w.start, w.events)
    requires Rotating(w.setup, i) && IsPrePublishedSite(c.certificates[i], j, name)
    requires c.certificates[i].name in w.stateFile
    modifies w
    ensures w.Valid() && |reports| == |c.certificates|
    ensures RunDid(JobOf(w, filter, force, true), reports, old(w.Disk()), w.Disk())
    ensures c.certificates[i].name !in w.stateFile <==> ActedOn(reports, i) && AnyRenewed(reports)
    ensures ActedOn(reports, i) && AnyRenewed(reports) && w.setup.exclusiveAdd ==>
              Prerequisite.Stuck(w.setup, w.Cur(), i, j, name)
  {
    ghost var s := w.Cur();
    assert Reached(w.setup, w.start, s, i);
    hide Exec, Guarded, KeptApart;
    r, reports := Run.Run(w, c, isIp, filter, force, true);
    NothingStarted(JobOf(w, filter, force, true), reports, s.disk.stateFile, i);
    if w.setup.exclusiveAdd && c.certificates[i].name !in w.stateFile {
      LossIsStuck(w.setup, w.start, s, w.Cur(), i, j, name);
    }
  }

  lemma NothingStarted(job: Job, reports: seq<Report>, before: PendingMap, k: nat)
    requires job.dryRun && |reports| <= |job.Certs()|
    ensures !StartedAfter(job, reports, before, k)
  {
  }

  // ----- A crash between the two files -----

  /** Certificate `i` has a saved entry that the next run may take. */
  predicate Ready(setup: Setup, s: Sys, i: nat) {
    && s.process.Down? && i < |setup.certificates| && setup.certificates[i].name in s.disk.stateFile
    && var p := s.disk.stateFile[setup.certificates[i].name];
       TtlExpired(p.publishedAt, p.oldTtl, s.disk.now) && p.keyPath in s.disk.pendingKeys
  }

  /** The process may end right after the new certificate has been written: the key file is then
      still the old one and the entry is still saved. The two files then belong together exactly
      when the old key file already held the pending key. */
  lemma CrashBetweenFiles(setup: Setup, s: Sys, i: nat, leaf: Leaf)
    requires Ready(setup, s, i)
    requires leaf.spki == s.disk.pendingKeys[s.disk.stateFile[setup.certificates[i].name].keyPath].spki
    ensures var cert := setup.certificates[i];
            var t := s.(disk := s.disk.(certs := s.disk.certs[cert.certPath := leaf]));
            && Exec(setup, s, [StartRun, TakePending(i), InstallCertificate(leaf), EndRun]) == Some(t)
            && (Agrees(cert, t.disk.certs, t.disk.keys)
                <==> (KeyLocation(cert).Some? ==> KeyLocation(cert).value in s.disk.keys
                                                  && s.disk.keys[KeyLocation(cert).value].spki == leaf.spki))
  {
    var run := [StartRun, TakePending(i), InstallCertificate(leaf)];
    RotationInstalls(setup, s, i, leaf);
    assert run + [EndRun] == [StartRun, TakePending(i), InstallCertificate(leaf), EndRun];
    ExecAppend(setup, s, run, EndRun);
  }

  /** No run acts on a certificate that it has read and found not due. */
  lemma NotDueIsNotActedOn(setup: Setup, turn: Turn, k: nat)
    requires TookPlace(turn) && turn.job.setup == setup && turn.job.reliable
    requires PathsApart(setup.certificates) && k < |setup.certificates|
    requires k < |turn.reports| && turn.reports[k].Processed? ==>
               NotDue(turn.before.certs, setup.certificates[k], turn.job.force, turn.reports[k].decision.dueAt)
    ensures !ActedOn(turn.reports, k)
  {
  }

  /** The installed certificate was not due at any of the first `n` runs that looked at it. */
  ghost predicate NotYetDue(setup: Setup, turns: seq<Turn>, k: nat, leaf: Leaf, n: nat)
    requires n <= |turns| && k < |setup.certificates|
  {
    forall m: nat :: m < n && k < |turns[m].reports| && turns[m].reports[k].Processed? ==>
      !ExpiresWithinDays(leaf.notAfter, turns[m].reports[k].decision.dueAt, setup.certificates[k].renewBeforeDays)
  }

  lemma NotDueUnforced(setup: Setup, turn: Turn, k: nat, leaf: Leaf)
    requires TookPlace(turn) && turn.job.setup == setup && turn.job.reliable && !turn.job.force
    requires OwnFiles(setup.certificates) && k < |setup.certificates|
    requires var path := setup.certificates[k].certPath;
             path in turn.before.certs && turn.before.certs[path] == leaf
    requires k < |turn.reports| && turn.reports[k].Processed? ==>
               !ExpiresWithinDays(leaf.notAfter, turn.reports[k].decision.dueAt, setup.certificates[k].renewBeforeDays)
    ensures !ActedOn(turn.reports, k)
  {
    NotDueIsNotActedOn(setup, turn, k);
  }

  lemma EntryNotActedOn(turn: Turn, k: nat)
    requires TookPlace(turn) && k < |turn.job.Certs()| && !ActedOn(turn.reports, k)
    ensures turn.job.Certs()[k].name in turn.before.stateFile ==>
              Agree(turn.job.Certs()[k].name, turn.before.stateFile, turn.after.stateFile)
  {
  }

  /** Unforced runs on a reliable network, dry or not, leave such a state alone until the new
      certificate is itself due: the files still do or do not belong together, and the entry is
      still saved. */
  lemma {:induction false} UnfinishedUntilDue(setup: Setup, turns: seq<Turn>, k: nat, leaf: Leaf, n: nat)
    requires Runs(setup, turns) && OwnFiles(setup.certificates) && k < |setup.certificates| && n < |turns|
    requires forall m: nat :: m < n ==> turns[m].job.reliable && !turns[m].job.force
    requires var cert := setup.certificates[k];
             cert.certPath in turns[0].before.certs && turns[0].before.certs[cert.certPath] == leaf
    requires NotYetDue(setup, turns, k, leaf, n)
    ensures forall m: nat :: m < n ==> !ActedOn(turns[m].reports, k)
    ensures var cert := setup.certificates[k];
            && SameFilesOf(cert, turns[0].before, turns[n].before)
            && (Agrees(cert, turns[n].before.certs, turns[n].before.keys)
                <==> Agrees(cert, turns[0].before.certs, turns[0].before.keys))
            && (cert.name in turns[0].before.stateFile ==>
                  Agree(cert.name, turns[0].before.stateFile, turns[n].before.stateFile))
  {
    hide TookPlace, NotDue, ExpiresWithinDays;
    if n > 0 {
      UnfinishedUntilDue(setup, turns, k, leaf, n - 1);
      assert TookPlace(turns[n - 1]) && turns[n - 1].job.reliable && !turns[n - 1].job.force;
      NotDueUnforced(setup, turns[n - 1], k, leaf);
      EntryNotActedOn(turns[n - 1], k);
      FilesStay(setup, turns, k, n);
      assert LeftAlone(turns[n - 1].after, turns[n].before);
    }
  }

  lemma NotDueIsQuiet(cert: Certificate, v: View, ttlAt: Instant, dueAt: Instant, u: View, leaf: Leaf)
    requires RunStep(cert, v, ttlAt, dueAt, u) && v.leaf == Some(leaf)
    requires !ExpiresWithinDays(leaf.notAfter, dueAt, cert.renewBeforeDays)
    ensures u == v
  {
  }

  lemma {:induction false} StillPending(setup: Setup, turns: seq<Turn>, k: nat, leaf: Leaf, n: nat)
    requires Sane(setup, turns, k) && n < |turns| && NotYetDue(setup, turns, k, leaf, n)
    requires ScheduleOf(turns, setup.certificates[k], k).views[0].leaf == Some(leaf)
    ensures ScheduleOf(turns, setup.certificates[k], k).views[n] == ScheduleOf(turns, setup.certificates[k], k).views[0]
  {
    if n > 0 {
      var cert, s := setup.certificates[k], ScheduleOf(turns, setup.certificates[k], k);
      assert s.dueAt[n - 1] == turns[n - 1].reports[k].decision.dueAt;
      hide RunStep, ScheduleOf, Runs, Rotates, Backed, ViewOf, PathsAsWritten, ExpiresWithinDays;
      StillPending(setup, turns, k, leaf, n - 1);
      TurnIsStep(setup, turns, k, n - 1);
      NotDueIsQuiet(cert, s.views[n - 1], s.ttlAt[n - 1], s.dueAt[n - 1], s.views[n], leaf);
    }
  }

  /** The first run that finds the new certificate due, and the TTL passed, issues once more for
      the pending key, and puts the two files right. */
  lemma FinishedWhenDue(setup: Setup, turns: seq<Turn>, k: nat, leaf: Leaf, p: PendingRotation, key: Key, n: nat)
    requires Sane(setup, turns, k) && OwnFiles(setup.certificates) && n < |turns|
    requires NotYetDue(setup, turns, k, leaf, n)
    requires ScheduleOf(turns, setup.certificates[k], k).views[0] == View(Some(leaf), Some(p), Some(key))
    requires var at := turns[n].reports[k].decision;
             && ExpiresWithinDays(leaf.notAfter, at.dueAt, setup.certificates[k].renewBeforeDays)
             && TtlExpired(p.publishedAt, p.oldTtl, at.ttlAt)
    ensures var cert, d := setup.certificates[k], turns[n].after;
            && cert.name !in d.stateFile && cert.certPath in d.certs && d.certs[cert.certPath].spki == key.spki
            && Agrees(cert, d.certs, d.keys)
  {
    var cert := setup.certificates[k];
    StillPending(setup, turns, k, leaf, n);
    TurnIsStep(setup, turns, k, n);
    PathsStayAsWritten(setup, turns, n);
    ViewAfter(setup, turns, cert, k, n);
    assert TookPlace(turns[n]);
    assert ActedOn(turns[n].reports, k);
  }
}
