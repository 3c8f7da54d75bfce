/** Runs one after the other, as the timer starts them: what one leaves in the files is what the
    next begins with. */
module Series {
  import opened Prelude
  import opened Config
  import opened Expiry
  import opened Protocol
  import opened World
  import opened Renew
  import opened Liveness
  import opened Reports
  import opened Progress
  import opened Continuity
  import opened Run
  import opened Safety
  import opened KeptKeys
  import Validation

  /** One run: what it was given, the files before and after, and its reports. */
  datatype Turn = Turn(job: Job, before: Durable, after: Durable, reports: seq<Report>)

  /** The options of one call of `renew`. */
  datatype Options = Options(filter: Option<string>, force: bool, dryRun: bool)

  /** Between two runs the files are left alone; time passes, and records may be published. */
  predicate LeftAlone(d: Durable, e: Durable) {
    d.now <= e.now && e == d.(now := e.now, zone := e.zone)
  }

  /** The run did its work, or failed before it began. */
  ghost predicate TookPlace(turn: Turn) {
    || RunDid(turn.job, turn.reports, turn.before, turn.after)
    || (!turn.job.reliable && Aborted(turn.reports, turn.before, turn.after))
  }

  /** Runs of one configuration after each other, each with options of its own. */
  ghost predicate Runs(setup: Setup, turns: seq<Turn>) {
    && (forall n :: 0 <= n < |turns| ==> turns[n].job.setup == setup && TookPlace(turns[n]))
    && (forall n :: 0 < n < |turns| ==> LeftAlone(turns[n - 1].after, turns[n].before))
  }

  /** No run gave the certificate a key of other records that it should not get. */
  ghost predicate NeverRekeyed(setup: Setup, turns: seq<Turn>, i: nat) {
    forall n :: 0 <= n < |turns| ==>
      i !in Rekeyings(setup, turns[n].before.stateFile, turns[n].before.certs, turns[n].after.certs)
  }

  /** Every certificate guarded after the steps `a` and never rekeyed is still guarded. */
  ghost predicate GuardedThrough(setup: Setup, start: Sys, a: seq<Event>, b: seq<Event>, turns: seq<Turn>) {
    forall i :: i in Guarded(setup, start, a) && NeverRekeyed(setup, turns, i) ==> i in Guarded(setup, start, b)
  }

  lemma OneMoreGuarded(setup: Setup, start: Sys, a: seq<Event>, b: seq<Event>, c: seq<Event>, turns: seq<Turn>,
                       turn: Turn)
    requires GuardedThrough(setup, start, a, b, turns)
    requires ClientsServed(setup, start, b, c, turn.before, turn.after)
    ensures GuardedThrough(setup, start, a, c, turns + [turn])
  {
    hide Guarded, Rekeyings;
    var all := turns + [turn];
    forall i | i in Guarded(setup, start, a) && NeverRekeyed(setup, all, i) ensures i in Guarded(setup, start, c) {
      assert all[|turns|] == turn;
      assert forall n :: 0 <= n < |turns| ==> all[n] == turns[n];
      assert NeverRekeyed(setup, turns, i);
    }
  }

  lemma OneMoreRun(setup: Setup, turns: seq<Turn>, turn: Turn)
    requires Runs(setup, turns) && turn.job.setup == setup && TookPlace(turn)
    requires turns != [] ==> LeftAlone(turns[|turns| - 1].after, turn.before)
    ensures Runs(setup, turns + [turn])
  {
  }

  lemma RunsStart(setup: Setup, start: Sys, a: seq<Event>)
    ensures Runs(setup, []) && GuardedThrough(setup, start, a, a, [])
  {
  }

  /** Starting `renew` again and again, forced, filtered or dry as it comes, with any time in
      between. The clients of a certificate guarded before validate after every step of all of it, if
      it rotates or is never rekeyed. */
  method RunMany(w: World, c: Configuration, isIp: Validation.IpTest, calls: seq<Options>)
    returns (turns: seq<Turn>)
    requires w.Valid() && w.process.Down? && w.setup.certificates == c.certificates && Validation.ValidConfig(c, isIp)
    modifies w
    ensures w.Valid() && w.process.Down? && |turns| == |calls| && Runs(w.setup, turns)
    ensures forall n :: 0 <= n < |calls| ==>
              turns[n].job == JobOf(w, calls[n].filter, calls[n].force, calls[n].dryRun)
    ensures calls != [] ==> LeftAlone(old(w.Disk()), turns[0].before) && turns[|calls| - 1].after == w.Disk()
    ensures forall i :: i in Guarded(w.setup, old(w.start), old(w.events))
                        && (Rotating(w.setup, i) || NeverRekeyed(w.setup, turns, i)) ==>
              i in Guarded(w.setup, w.start, w.events) && ValidatesThroughout(w.setup, w.start, w.events, i)
  {
    hide RunDid, ClientsServed, Guarded, KeptApart, Exec, HooksOf, Validation.ValidConfig, ValidatesThroughout;
    turns := [];
    ghost var a := w.events;
    RunsStart(w.setup, w.start, a);
    while |turns| < |calls|
      invariant w.start == old(w.start) && GuardedThrough(w.setup, w.start, a, w.events, turns)
      invariant w.Valid() && w.process.Down? && |turns| <= |calls| && Runs(w.setup, turns)
      invariant forall n :: 0 <= n < |turns| ==>
                  turns[n].job == JobOf(w, calls[n].filter, calls[n].force, calls[n].dryRun)
      invariant if turns == [] then w.Disk() == old(w.Disk())
                else LeftAlone(old(w.Disk()), turns[0].before) && turns[|turns| - 1].after == w.Disk()
    {
      var call := calls[|turns|];
      w.Advance();
      var before := w.Disk();
      ghost var b := w.events;
      var r, reports := Run.Run(w, c, isIp, call.filter, call.force, call.dryRun);
      var turn := Turn(JobOf(w, call.filter, call.force, call.dryRun), before, w.Disk(), reports);
      OneMoreRun(w.setup, turns, turn);
      OneMoreGuarded(w.setup, w.start, a, b, w.events, turns, turn);
      turns := turns + [turn];
    }
    assert GuardedThrough(w.setup, w.start, a, w.events, turns);
    forall i | i in Guarded(w.setup, w.start, a) && (Rotating(w.setup, i) || NeverRekeyed(w.setup, turns, i))
      ensures i in Guarded(w.setup, w.start, w.events) && ValidatesThroughout(w.setup, w.start, w.events, i)
    {
      assert NeverRekeyed(w.setup, turns, i);
      GuardedValidate(w.setup, w.start, w.events, i);
    }
  }

  // ----- The schedule of one certificate -----

  /** Every run looks at certificate `k`. */
  predicate Watched(turns: seq<Turn>, k: nat) {
    forall n :: 0 <= n < |turns| ==> k < |turns[n].reports| && turns[n].reports[k].Processed?
  }

  function ScheduleOf(turns: seq<Turn>, cert: Certificate, k: nat): (s: Schedule)
    requires turns != [] && Watched(turns, k)
    ensures s.Shaped() && |s.ttlAt| == |turns|
  {
    Schedule(
      seq(|turns| + 1, n requires 0 <= n <= |turns| =>
        if n < |turns| then ViewOf(turns[n].before, turns[n].before.stateFile, cert)
        else ViewOf(turns[n - 1].after, turns[n - 1].after.stateFile, cert)),
      seq(|turns|, n requires 0 <= n < |turns| => turns[n].reports[k].decision.ttlAt),
      seq(|turns|, n requires 0 <= n < |turns| => turns[n].reports[k].decision.dueAt))
  }

  /** The view after a run is the view before the next. */
  lemma ViewAfter(setup: Setup, turns: seq<Turn>, cert: Certificate, k: nat, n: nat)
    requires Runs(setup, turns) && Watched(turns, k) && n < |turns|
    ensures ScheduleOf(turns, cert, k).views[n + 1] == ViewOf(turns[n].after, turns[n].after.stateFile, cert)
  {
    if n + 1 < |turns| {
      assert LeftAlone(turns[n + 1 - 1].after, turns[n + 1].before);
    }
  }

  lemma {:induction false} PathsStayAsWritten(setup: Setup, turns: seq<Turn>, n: nat)
    requires Runs(setup, turns) && n < |turns| && PathsAsWritten(turns[0].before.stateFile)
    ensures PathsAsWritten(turns[n].before.stateFile)
  {
    if n > 0 {
      PathsStayAsWritten(setup, turns, n - 1);
      assert TookPlace(turns[n - 1]) && LeftAlone(turns[n - 1].after, turns[n].before);
    }
  }

  /** What is asked of the files at the beginning, of the certificate, and of each run. */
  ghost predicate Sane(setup: Setup, turns: seq<Turn>, k: nat) {
    && Runs(setup, turns) && turns != [] && Watched(turns, k) && (forall n :: 0 <= n < |turns| ==> Calm(turns[n].job))
    && k < |setup.certificates| && Rotates(setup.certificates[k])
    && PathsAsWritten(turns[0].before.stateFile)
    && Backed(ViewOf(turns[0].before, turns[0].before.stateFile, setup.certificates[k]))
  }

  /** Every calm run is one step of the schedule, and keeps the entry backed by its key file. */
  lemma {:induction false} TurnIsStep(setup: Setup, turns: seq<Turn>, k: nat, n: nat)
    requires Sane(setup, turns, k) && n < |turns|
    ensures var cert, s := setup.certificates[k], ScheduleOf(turns, setup.certificates[k], k);
            && s.ttlAt[n] <= s.dueAt[n]
            && RunStep(cert, s.views[n], s.ttlAt[n], s.dueAt[n], s.views[n + 1]) && Backed(s.views[n + 1])
    decreases n
  {
    var cert, s := setup.certificates[k], ScheduleOf(turns, setup.certificates[k], k);
    if n > 0 {
      TurnIsStep(setup, turns, k, n - 1);
    }
    PathsStayAsWritten(setup, turns, n);
    assert TookPlace(turns[n]) && Calm(turns[n].job);
    ViewAfter(setup, turns, cert, k, n);
  }

  /** The runs look at certificate `k` at most `gap` apart, and a run that starts a rotation stamps
      it at most `e` after it found the certificate due. */
  predicate Paced(turns: seq<Turn>, cert: Certificate, k: nat, gap: nat, e: nat)
    requires Watched(turns, k)
  {
    && (forall n :: 0 < n < |turns| ==>
          turns[n].reports[k].decision.dueAt - turns[n - 1].reports[k].decision.ttlAt <= gap)
    && (forall n :: 0 <= n < |turns| ==>
          cert.name !in turns[n].before.stateFile ==> cert.name in turns[n].after.stateFile ==>
          turns[n].after.stateFile[cert.name].publishedAt <= turns[n].reports[k].decision.dueAt + e)
  }

  lemma SeriesIsTimely(setup: Setup, turns: seq<Turn>, k: nat, gap: nat, e: nat)
    requires Sane(setup, turns, k) && Paced(turns, setup.certificates[k], k, gap, e)
    ensures Timely(setup.certificates[k], ScheduleOf(turns, setup.certificates[k], k), gap, e)
  {
    var cert, s := setup.certificates[k], ScheduleOf(turns, setup.certificates[k], k);
    forall n: nat | n < |turns| ensures Undisturbed(cert, s, e, n) {
      TurnIsStep(setup, turns, k, n);
      ViewAfter(setup, turns, cert, k, n);
    }
    forall n | 0 < n < |turns| ensures Spaced(s, gap, n) {
      assert TookPlace(turns[n]) && TookPlace(turns[n - 1]) && Calm(turns[n].job) && Calm(turns[n - 1].job);
      assert LeftAlone(turns[n - 1].after, turns[n].before);
    }
  }

  /** Bounded-time rotation of the files themselves, over runs of the program at most `gap` apart
      that go on long enough. A certificate with no rotation under way, due already, not due yet or
      never issued, is pre-published by some run m and issued by a later run n for the key that run
      m left in its file, by the stated instant; until then the file stays as it was, and afterwards
      the entry is gone. */
  lemma RotationOverRuns(setup: Setup, turns: seq<Turn>, k: nat, gap: nat, e: nat) returns (m: nat, n: nat)
    requires Sane(setup, turns, k) && Paced(turns, setup.certificates[k], k, gap, e)
    requires var cert, s := setup.certificates[k], ScheduleOf(turns, setup.certificates[k], k);
             && cert.name !in turns[0].before.stateFile
             && turns[|turns| - 1].reports[k].decision.ttlAt
                > DueBy(cert, s, s.views[0].leaf, gap) + e + MaxTtl(cert.dane) * NANOS
    ensures m < n < |turns|
    ensures var cert, path := setup.certificates[k], PendingPath(setup.certificates[k].name);
            && cert.name !in turns[m].before.stateFile && cert.name in turns[m].after.stateFile
            && path in turns[m].after.pendingKeys
            && (forall l :: 0 <= l <= n ==> Agree(cert.certPath, turns[0].before.certs, turns[l].before.certs))
            && cert.name !in turns[n].after.stateFile && cert.certPath in turns[n].after.certs
            && turns[n].after.certs[cert.certPath].spki == turns[m].after.pendingKeys[path].spki
    ensures var cert, s := setup.certificates[k], ScheduleOf(turns, setup.certificates[k], k);
            var at := turns[n].reports[k].decision.dueAt;
            && at <= DueBy(cert, s, s.views[0].leaf, gap) + e + MaxTtl(cert.dane) * NANOS + gap
            && (!DueAtRun(cert, s, s.views[0].leaf, 0) ==>
                  s.views[0].leaf.value.notAfter - at >= DueMargin(cert) - 2 * gap - MaxTtl(cert.dane) * NANOS - e)
  {
    hide Timely, TookPlace, Calm, Rotates, Paced, DueBy, DueAtRun, DueMargin, MaxTtl, PathsAsWritten, Runs, Backed;
    var cert, s := setup.certificates[k], ScheduleOf(turns, setup.certificates[k], k);
    SeriesIsTimely(setup, turns, k, gap, e);
    m, n := RotationCompletesInTime(cert, s, gap, e);
    ViewAfter(setup, turns, cert, k, m);
    ViewAfter(setup, turns, cert, k, n);
    forall l | 0 <= l <= n ensures Agree(cert.certPath, turns[0].before.certs, turns[l].before.certs) {
      assert s.views[l].leaf == s.views[0].leaf;
    }
  }

  /** The same from a saved entry: the rotation is finished with the key in its file, no later than
      one gap after its TTL has passed and the certificate is due. */
  lemma EntryFinishedOverRuns(setup: Setup, turns: seq<Turn>, k: nat, gap: nat, e: nat) returns (n: nat)
    requires Sane(setup, turns, k) && Paced(turns, setup.certificates[k], k, gap, e)
    requires var cert, s := setup.certificates[k], ScheduleOf(turns, setup.certificates[k], k);
             && cert.name in turns[0].before.stateFile
             && var p, last := turns[0].before.stateFile[cert.name], turns[|turns| - 1].reports[k].decision.ttlAt;
                last >= p.publishedAt + p.oldTtl * NANOS && last > DueBy(cert, s, s.views[0].leaf, gap)
    ensures n < |turns| && PendingPath(setup.certificates[k].name) in turns[0].before.pendingKeys
    ensures var cert, path := setup.certificates[k], PendingPath(setup.certificates[k].name);
            && (forall l :: 0 <= l <= n ==>
                  && Agree(cert.certPath, turns[0].before.certs, turns[l].before.certs)
                  && Agree(cert.name, turns[0].before.stateFile, turns[l].before.stateFile))
            && cert.name !in turns[n].after.stateFile && cert.certPath in turns[n].after.certs
            && turns[n].after.certs[cert.certPath].spki == turns[0].before.pendingKeys[path].spki
    ensures var cert, s := setup.certificates[k], ScheduleOf(turns, setup.certificates[k], k);
            var p, at := turns[0].before.stateFile[cert.name], turns[n].reports[k].decision.dueAt;
            n == 0 || at <= p.publishedAt + p.oldTtl * NANOS + gap || at <= DueBy(cert, s, s.views[0].leaf, gap)
  {
    hide Timely, TookPlace, Calm, Rotates, Paced, DueBy, DueAtRun, MaxTtl, Runs;
    var cert, s := setup.certificates[k], ScheduleOf(turns, setup.certificates[k], k);
    SeriesIsTimely(setup, turns, k, gap, e);
    n := EntryFinishedInTime(cert, s, gap, e, 0, s.views[0].entry.value, s.views[0].keyFile.value);
    ViewAfter(setup, turns, cert, k, n);
    forall l | 0 <= l <= n
      ensures Agree(cert.certPath, turns[0].before.certs, turns[l].before.certs)
      ensures Agree(cert.name, turns[0].before.stateFile, turns[l].before.stateFile)
    {
      assert s.views[l] == s.views[0];
    }
  }

  // ----- Certificate and key file over runs -----

  /** Until a run acts on it, nothing happens to the two files of a certificate: whether they
      belong together stays as it is. Forced, dry, disturbed or aborted runs make no difference. */
  lemma {:induction false} FilesStay(setup: Setup, turns: seq<Turn>, k: nat, n: nat)
    requires Runs(setup, turns) && OwnFiles(setup.certificates) && k < |setup.certificates| && n < |turns|
    requires forall m: nat :: m < n ==> !ActedOn(turns[m].reports, k)
    ensures var cert := setup.certificates[k];
            && SameFilesOf(cert, turns[0].before, turns[n].before)
            && (Agrees(cert, turns[n].before.certs, turns[n].before.keys)
                <==> Agrees(cert, turns[0].before.certs, turns[0].before.keys))
  {
    if n > 0 {
      FilesStay(setup, turns, k, n - 1);
      assert !ActedOn(turns[n - 1].reports, k);
      assert TookPlace(turns[n - 1]) && LeftAlone(turns[n - 1].after, turns[n].before);
    }
  }

  /** The run that renews it puts them right, whatever they were. */
  lemma RenewalRepairs(setup: Setup, turns: seq<Turn>, k: nat, n: nat)
    requires Runs(setup, turns) && OwnFiles(setup.certificates) && n < |turns| && !turns[n].job.dryRun
    requires k < |turns[n].reports| && Renewed(turns[n].reports[k])
    ensures k < |setup.certificates| && Agrees(setup.certificates[k], turns[n].after.certs, turns[n].after.keys)
  {
    assert TookPlace(turns[n]);
  }

  // ----- The key of an entry over runs -----

  /** As long as an entry is saved, it and the key in its file stay as they are, whatever the runs
      do and whatever fails. */
  lemma {:induction false} EntryStays(setup: Setup, turns: seq<Turn>, k: nat, n: nat)
    requires Runs(setup, turns) && PathsApart(setup.certificates) && k < |setup.certificates| && n < |turns|
    requires PathsAsWritten(turns[0].before.stateFile)
    requires forall m: nat :: m <= n ==> setup.certificates[k].name in turns[m].before.stateFile
    ensures var cert := setup.certificates[k];
            && Agree(cert.name, turns[0].before.stateFile, turns[n].before.stateFile)
            && Agree(PendingPath(cert.name), turns[0].before.pendingKeys, turns[n].before.pendingKeys)
  {
    if n > 0 {
      EntryStays(setup, turns, k, n - 1);
      PathsStayAsWritten(setup, turns, n - 1);
      assert setup.certificates[k].name in turns[n - 1].before.stateFile;
      assert TookPlace(turns[n - 1]) && LeftAlone(turns[n - 1].after, turns[n].before);
      if RunDid(turns[n - 1].job, turns[n - 1].reports, turns[n - 1].before, turns[n - 1].after) {
        assert KeyFollowed(turns[n - 1].job, turns[n - 1].reports, k, turns[n - 1].before,
                           turns[n - 1].before.stateFile, turns[n - 1].after);
      }
    }
  }

  /** And the run that then renews the certificate, forced or not and on any network, installs it
      for just that key. */
  lemma RenewedFromEntry(setup: Setup, turns: seq<Turn>, k: nat, n: nat)
    requires Runs(setup, turns) && PathsApart(setup.certificates) && k < |setup.certificates| && n < |turns|
    requires PathsAsWritten(turns[0].before.stateFile)
    requires forall m: nat :: m <= n ==> setup.certificates[k].name in turns[m].before.stateFile
    requires k < |turns[n].reports| && Renewed(turns[n].reports[k]) && !turns[n].job.dryRun
    ensures ForPendingKey(setup.certificates[k], turns[0].before, turns[0].before.stateFile, turns[n].after)
  {
    EntryStays(setup, turns, k, n);
    PathsStayAsWritten(setup, turns, n);
    assert setup.certificates[k].name in turns[n].before.stateFile;
    assert TookPlace(turns[n]);
    assert KeyFollowed(turns[n].job, turns[n].reports, k, turns[n].before, turns[n].before.stateFile, turns[n].after);
  }

  /** A failed completion can be tried again, with the same key: after any number of runs in which
      nothing but completions was attempted and all of them failed, or which failed before they
      began, a run that renews the certificate installs it for the key in the entry's file. */
  lemma FailedCompletionRetries(setup: Setup, turns: seq<Turn>, k: nat, n: nat)
    requires Runs(setup, turns) && PathsApart(setup.certificates) && k < |setup.certificates| && n < |turns|
    requires PathsAsWritten(turns[0].before.stateFile) && setup.certificates[k].name in turns[0].before.stateFile
    requires forall m: nat :: m < n ==>
               && |turns[m].reports| <= |setup.certificates|
               && OnlyFailedCompletions(setup.certificates, turns[m].reports, turns[m].before.stateFile)
    requires k < |turns[n].reports| && Renewed(turns[n].reports[k]) && !turns[n].job.dryRun
    ensures ForPendingKey(setup.certificates[k], turns[0].before, turns[0].before.stateFile, turns[n].after)
  {
    forall m: nat | m <= n ensures setup.certificates[k].name in turns[m].before.stateFile {
      StateStays(setup, turns, m);
    }
    RenewedFromEntry(setup, turns, k, n);
  }

  lemma {:induction false} StateStays(setup: Setup, turns: seq<Turn>, n: nat)
    requires Runs(setup, turns) && n < |turns|
    requires forall m: nat :: m < n ==>
               && |turns[m].reports| <= |setup.certificates|
               && OnlyFailedCompletions(setup.certificates, turns[m].reports, turns[m].before.stateFile)
    ensures turns[n].before.stateFile == turns[0].before.stateFile
  {
    if n > 0 {
      StateStays(setup, turns, n - 1);
      assert OnlyFailedCompletions(setup.certificates, turns[n - 1].reports, turns[n - 1].before.stateFile);
      assert TookPlace(turns[n - 1]) && LeftAlone(turns[n - 1].after, turns[n].before);
    }
  }
}
