/** `renew::run` (src/renew.rs:69-135): every selected certificate in turn, then the named
    hooks, then one save if something was renewed. */
module Run {
  import opened Prelude
  import opened Config
  import opened Protocol
  import opened World
  import opened Hooks
  import opened Renew
  import opened RenewCertificate
  import opened Reports
  import opened Progress
  import opened PlainRun
  import opened Continuity
  import KeptKeys
  import Safety
  import Validation

  datatype RunError = StateUnreadable | NoAccount | StateNotSaved

  // ----- Hooks -----

  /** The hook names asked for by the renewed certificates, in certificate order. */
  function WantedHooks(certs: seq<Certificate>, reports: seq<Report>): seq<string>
    requires |reports| <= |certs|
  {
    if reports == [] then []
    else
      var n := |reports| - 1;
      WantedHooks(certs, reports[..n]) + if Renewed(reports[n]) then certs[n].hooks else []
  }

  /** The inline hooks of the renewed certificates, in certificate order. */
  function InlinePart(certs: seq<Certificate>, reports: seq<Report>): seq<HookRun>
    requires |reports| <= |certs|
  {
    if reports == [] then []
    else
      var n := |reports| - 1;
      InlinePart(certs, reports[..n]) + if Renewed(reports[n]) then InlineRuns(certs[n]) else []
  }

  /** What the loop has collected: whether to save, which named hooks to run, and the inline
      hooks it has started. */
  predicate Tally(certs: seq<Certificate>, reports: seq<Report>, dryRun: bool, dirty: bool, wanted: seq<string>,
                  log0: seq<HookRun>, log: seq<HookRun>)
    requires |reports| <= |certs|
  {
    && (dirty <==> AnyRenewed(reports)) && wanted == WantedHooks(certs, reports)
    && log == log0 + if dryRun then [] else InlinePart(certs, reports)
  }

  lemma TallyStep(certs: seq<Certificate>, reports: seq<Report>, r: Report, dryRun: bool, dirty: bool,
                  wanted: seq<string>,
                  log0: seq<HookRun>, log: seq<HookRun>, more: seq<HookRun>)
    requires |reports| < |certs| && Tally(certs, reports, dryRun, dirty, wanted, log0, log)
    requires more == log + if Renewed(r) && !dryRun then InlineRuns(certs[|reports|]) else []
    ensures Tally(certs, reports + [r], dryRun, dirty || Renewed(r),
                  wanted + if Renewed(r) then certs[|reports|].hooks else [], log0, more)
  {
  }

  predicate AsksFor(certs: seq<Certificate>, reports: seq<Report>, k: nat, h: string) {
    k < |reports| && k < |certs| && Renewed(reports[k]) && h in certs[k].hooks
  }

  lemma {:induction false} WantedByRenewed(certs: seq<Certificate>, reports: seq<Report>, h: string)
    requires |reports| <= |certs|
    ensures h in WantedHooks(certs, reports) <==> exists k: nat :: AsksFor(certs, reports, k, h)
  {
    if reports != [] {
      var n := |reports| - 1;
      var init := reports[..n];
      WantedByRenewed(certs, init, h);
      if h in WantedHooks(certs, init) {
        var k: nat :| AsksFor(certs, init, k, h);
        assert AsksFor(certs, reports, k, h);
      }
      if Renewed(reports[n]) && h in certs[n].hooks {
        assert AsksFor(certs, reports, n, h);
      }
      if exists k: nat :: AsksFor(certs, reports, k, h) {
        var k: nat :| AsksFor(certs, reports, k, h);
        assert k < n ==> AsksFor(certs, init, k, h);
      }
    }
  }

  /** The named hooks a run starts are exactly those that some renewed certificate names, each
      once and in definition order, whatever else the run did. */
  lemma StartedHooksExactly(c: Configuration, isIp: Validation.IpTest, reports: seq<Report>)
    requires Validation.ValidConfig(c, isIp) && |reports| == |c.certificates|
    ensures var runs := NamedRuns(c.hook, WantedHooks(c.certificates, reports));
            && (forall h :: Named(h) in runs <==> exists k: nat :: AsksFor(c.certificates, reports, k, h))
            && (forall a, b :: 0 <= a < b < |runs| ==> runs[a] != runs[b])
  {
    var wanted := WantedHooks(c.certificates, reports);
    forall h ensures h in wanted <==> exists k: nat :: AsksFor(c.certificates, reports, k, h) {
      WantedByRenewed(c.certificates, reports, h);
    }
    forall h | h in wanted ensures h in Validation.HookNames(c.hook) {
      var k: nat :| AsksFor(c.certificates, reports, k, h);
      assert Validation.ValidCertificate(c, isIp, c.certificates[k]);
      var l :| 0 <= l < |c.certificates[k].hooks| && c.certificates[k].hooks[l] == h;
    }
    NamedHooksExactly(c.hook, wanted);
  }

  lemma {:induction false} NothingWanted(hooks: seq<NamedHook>)
    ensures NamedRuns(hooks, []) == []
  {
    if hooks != [] {
      NothingWanted(hooks[..|hooks| - 1]);
    }
  }

  /** All hooks of a run: the inline ones of the renewed certificates, then the named ones. */
  function HooksOf(c: Configuration, reports: seq<Report>, dryRun: bool): seq<HookRun>
    requires |reports| <= |c.certificates|
  {
    if dryRun then [] else InlinePart(c.certificates, reports) + NamedRuns(c.hook, WantedHooks(c.certificates, reports))
  }

  // ----- The loop -----

  /** The job of a run on a world. */
  function JobOf(w: World, filter: Option<string>, force: bool, dryRun: bool): Job {
    Job(w.setup, w.reliable, filter, force, dryRun)
  }

  /** The body of the loop over certificates: the filter, then the renewal. */
  method ProcessOne(w: World, c: Configuration, isIp: Validation.IpTest, i: nat, state: State,
                    filter: Option<string>, force: bool, dryRun: bool) returns (report: Report)
    requires About(w, state, c, i) && Validation.ValidConfig(c, isIp)
    modifies w, state
    ensures Running(w, state, c) && w.process.stage == Free
    ensures RenewedCarefully(w, i, c.certificates[i].name in old(state.pendingRotations))
    ensures old(w.process.visited) <= w.process.visited <= old(w.process.visited) + {i}
    ensures Looked(JobOf(w, filter, force, dryRun), c.certificates[i], report, old(Now(w, state)), Now(w, state))
  {
    hide Exec, Outcome, Dependable, Justified, Informed, Safety.Guarded, Safety.KeptApart, KeptKeys.Carried;
    if !Selected(filter, c.certificates[i]) {
      KeptKeys.NothingInstalled(w.setup, w.start, w.events, w.events, i, [],
                                c.certificates[i].name in state.pendingRotations, w.Disk(), w.Disk());
      return Skipped;
    }
    var result, decision := RenewCertificate.RenewCertificate(w, c, isIp, i, state, force, dryRun);
    report := Processed(result, decision);
  }

  /** What the loop keeps, and what it moves forward when it is calm. */
  ghost predicate Going(job: Job, reports: seq<Report>, s: Snapshot, t: Snapshot) {
    && s.pending == s.disk.stateFile && |reports| <= |job.Certs()| && Loop(job, reports, s, t)
    && (Calm(job) && PathsAsWritten(s.pending) ==> LoopProgresses(job.Certs(), reports, s, t))
  }

  lemma GoingOn(job: Job, reports: seq<Report>, r: Report, s: Snapshot, m: Snapshot, t: Snapshot)
    requires NamesApart(job) && |reports| < |job.Certs()| && Going(job, reports, s, m)
    requires Looked(job, job.Certs()[|reports|], r, m, t)
    ensures Going(job, reports + [r], s, t)
    ensures t.log == m.log + if Renewed(r) && !job.dryRun then InlineRuns(job.Certs()[|reports|]) else []
  {
    LoopStep(job, reports, r, s, m, t);
    if Calm(job) && PathsAsWritten(s.pending) {
      LoopAdvances(job, reports, r, s, m, t);
    }
  }

  lemma GoingStarts(job: Job, s: Snapshot)
    requires s.pending == s.disk.stateFile
    ensures Going(job, [], s, s) && Tally(job.Certs(), [], job.dryRun, false, [], s.log, s.log)
  {
  }

  /** One round of the loop, on top of the rounds reported so far. */
  method ProcessNext(w: World, c: Configuration, isIp: Validation.IpTest, state: State, filter: Option<string>,
                     force: bool, dryRun: bool, reports: seq<Report>, dirty: bool, wanted: seq<string>,
                     ghost before: seq<Event>, ghost s: Snapshot)
    returns (report: Report, more: seq<string>)
    requires About(w, state, c, |reports|) && Validation.ValidConfig(c, isIp)
    requires Going(JobOf(w, filter, force, dryRun), reports, s, Now(w, state))
    requires Guarding(w.setup, w.start, before, w.events, |reports|, s, Now(w, state))
    requires Tally(c.certificates, reports, dryRun, dirty, wanted, s.log, w.hookLog)
    modifies w, state
    ensures Running(w, state, c) && w.process.stage == Free
    ensures w.start == old(w.start)
    ensures Guarding(w.setup, w.start, before, w.events, |reports| + 1, s, Now(w, state))
    ensures old(w.process.visited) <= w.process.visited <= old(w.process.visited) + {|reports|}
    ensures Going(JobOf(w, filter, force, dryRun), reports + [report], s, Now(w, state))
    ensures Tally(c.certificates, reports + [report], dryRun, dirty || Renewed(report), more, s.log, w.hookLog)
  {
    ghost var job, b, m := JobOf(w, filter, force, dryRun), w.events, Now(w, state);
    assert NamesApart(job) && Agree(c.certificates[|reports|].name, s.pending, m.pending);
    hide Exec, Safety.Guarded, Safety.KeptApart, KeptKeys.Carried, Guarding, Going, Tally;
    report := ProcessOne(w, c, isIp, |reports|, state, filter, force, dryRun);
    more := wanted + if Renewed(report) then c.certificates[|reports|].hooks else [];
    GuardingStep(w.setup, w.start, before, b, w.events, |reports|, s, m, Now(w, state));
    GoingOn(job, reports, report, s, m, Now(w, state));
    TallyStep(c.certificates, reports, report, dryRun, dirty, wanted, s.log, m.log, w.hookLog);
  }

  /** Only certificates before `n` have been visited. */
  predicate Below(visited: set<nat>, n: nat) {
    forall k :: k in visited ==> k < n
  }

  lemma BelowNext(visited: set<nat>, more: set<nat>, n: nat)
    requires Below(visited, n) && more <= visited + {n}
    ensures Below(more, n + 1)
  {
  }

  /** The loop over the certificates. */
  method ProcessAll(w: World, c: Configuration, isIp: Validation.IpTest, state: State,
                    filter: Option<string>, force: bool, dryRun: bool)
    returns (reports: seq<Report>, dirty: bool, wanted: seq<string>)
    requires Running(w, state, c) && w.process.stage == Free && w.process.visited == {}
    requires Validation.ValidConfig(c, isIp) && state.pendingRotations == w.stateFile
    modifies w, state
    ensures Running(w, state, c) && |reports| == |c.certificates|
    ensures w.start == old(w.start)
    ensures Guarding(w.setup, w.start, old(w.events), w.events, |reports|, old(Now(w, state)), Now(w, state))
    ensures Going(JobOf(w, filter, force, dryRun), reports, old(Now(w, state)), Now(w, state))
    ensures Tally(c.certificates, reports, dryRun, dirty, wanted, old(w.hookLog), w.hookLog)
  {
    reports, dirty, wanted := [], false, [];
    ghost var a, s := w.events, Now(w, state);
    GoingStarts(JobOf(w, filter, force, dryRun), s);
    GuardingStarts(w.setup, w.start, a, s);
    hide Exec, Going, Guarding, Tally, Validation.ValidConfig, Selected;
    while |reports| < |c.certificates|
      invariant |reports| <= |c.certificates|
      invariant Running(w, state, c) && w.process.stage == Free && Below(w.process.visited, |reports|)
      invariant w.start == old(w.start) && Guarding(w.setup, w.start, a, w.events, |reports|, s, Now(w, state))
      invariant Going(JobOf(w, filter, force, dryRun), reports, s, Now(w, state))
      invariant Tally(c.certificates, reports, dryRun, dirty, wanted, s.log, w.hookLog)
    {
      var report;
      ghost var visited := w.process.visited;
      report, wanted := ProcessNext(w, c, isIp, state, filter, force, dryRun, reports, dirty, wanted, a, s);
      BelowNext(visited, w.process.visited, |reports|);
      dirty := dirty || Renewed(report);
      reports := reports + [report];
    }
  }

  /** The named hooks, and the save if something was renewed. */
  method Conclude(w: World, c: Configuration, state: State, dirty: bool, wanted: seq<string>, dryRun: bool)
    returns (saved: bool)
    requires Running(w, state, c)
    modifies w
    ensures Running(w, state, c) && Kept(w)
    ensures old(w.now) <= w.now && w.Disk() == old(w.Disk()).(now := w.now, stateFile := w.stateFile)
    ensures w.stateFile == old(w.stateFile) || (dirty && w.stateFile == state.pendingRotations)
    ensures saved && dirty ==> w.stateFile == state.pendingRotations
    ensures w.reliable ==> saved
    ensures FoundBy(old(w.hookSaw), w.hookSaw, if dryRun then 0 else |NamedRuns(c.hook, wanted)|, old(w.Disk()))
    ensures w.hookLog == old(w.hookLog) + if dryRun then [] else NamedRuns(c.hook, wanted)
  {
    if wanted != [] {
      RunNamedHooks(w, c.hook, wanted, dryRun);
    } else {
      NothingWanted(c.hook);
    }
    saved := true;
    if dirty {
      saved := w.WriteState(state.pendingRotations);
    }
  }

  // ----- The run -----

  lemma HooksInTurn(log0: seq<HookRun>, log: seq<HookRun>, last: seq<HookRun>, inline: seq<HookRun>,
                    named: seq<HookRun>,
                    dryRun: bool)
    requires log == log0 + if dryRun then [] else inline
    requires last == log + if dryRun then [] else named
    ensures last == log0 + if dryRun then [] else inline + named
  {
  }

  /** What a whole run did to the files: what it keeps, what it loses for certain on a reliable
      network, and what it moves forward when it is calm. */
  ghost predicate RunDid(job: Job, reports: seq<Report>, d: Durable, e: Durable) {
    && |reports| == |job.Certs()| && RunKeeps(job, reports, d, e)
    && (job.reliable ==> RunLoses(job, reports, d, e))
    && (Calm(job) && PathsAsWritten(d.stateFile) ==> RunProgresses(job, reports, d, e))
  }

  lemma RunConcluded(job: Job, reports: seq<Report>, s: Snapshot, t: Snapshot, e: Durable)
    requires |reports| == |job.Certs()| && Going(job, reports, s, t) && Concluded(job, AnyRenewed(reports), t, e)
    ensures RunDid(job, reports, s.disk, e)
  {
    ConcludeKeeps(job, reports, s, t, e);
    if job.reliable {
      ConcludeLoses(job, reports, s, t, e);
    }
    if Calm(job) && PathsAsWritten(s.pending) {
      ConcludeProgresses(job, reports, s, t, e);
    }
  }

  /** The named hooks come last: they found all certificates, keys and records as the run leaves
      them. */
  predicate NamedHooksFound(saw: seq<Durable>, named: nat, e: Durable) {
    && named <= |saw|
    && forall k :: |saw| - named <= k < |saw| ==>
         saw[k].certs == e.certs && saw[k].keys == e.keys && saw[k].zone == e.zone
  }

  /** The number of named hooks that a run starts. */
  function NamedCount(c: Configuration, reports: seq<Report>, dryRun: bool): nat
    requires |reports| <= |c.certificates|
  {
    if dryRun then 0 else |NamedRuns(c.hook, WantedHooks(c.certificates, reports))|
  }

  /** A save leaves out every entry that was acted on. */
  ghost predicate TakenAreGone(certs: seq<Certificate>, reports: seq<Report>, before: PendingMap, after: PendingMap) {
    AnyRenewed(reports) ==>
      forall k: nat :: ActedOn(reports, k) && k < |certs| && certs[k].name in before ==> certs[k].name !in after
  }

  lemma SavedAreGone(job: Job, reports: seq<Report>, s: Snapshot, t: Snapshot, saved: bool, stateFile: PendingMap)
    requires |reports| == |job.Certs()| && Going(job, reports, s, t)
    requires saved && AnyRenewed(reports) ==> stateFile == t.pending
    ensures saved ==> TakenAreGone(job.Certs(), reports, s.pending, stateFile)
  {
  }

  /** A run between the loading of the state and its end. */
  method Work(w: World, c: Configuration, isIp: Validation.IpTest, state: State, filter: Option<string>, force: bool,
              dryRun: bool)
    returns (saved: bool, reports: seq<Report>)
    requires Running(w, state, c) && w.process.stage == Free && w.process.visited == {}
    requires Validation.ValidConfig(c, isIp) && state.pendingRotations == w.stateFile
    modifies w, state
    ensures Running(w, state, c)
    ensures w.start == old(w.start)
    ensures ClientsKept(w.setup, w.start, old(w.events), w.events, old(w.stateFile), old(w.Disk()), w.Disk())
    ensures RunDid(JobOf(w, filter, force, dryRun), reports, old(w.Disk()), w.Disk())
    ensures |reports| == |c.certificates| && w.hookLog == old(w.hookLog) + HooksOf(c, reports, dryRun)
    ensures NamedHooksFound(w.hookSaw, NamedCount(c, reports, dryRun), w.Disk())
    ensures saved ==> TakenAreGone(c.certificates, reports, old(w.stateFile), w.stateFile)
    ensures w.reliable ==> saved
  {
    hide Exec, Going, ClientsKept, NotReached, Safety.Guarded, Safety.KeptApart, Validation.ValidConfig;
    ghost var a, job, s := w.events, JobOf(w, filter, force, dryRun), Now(w, state);
    var dirty, wanted;
    reports, dirty, wanted := ProcessAll(w, c, isIp, state, filter, force, dryRun);
    ghost var b, t := w.events, Now(w, state);
    saved := Conclude(w, c, state, dirty, wanted, dryRun);
    HooksInTurn(s.log, t.log, w.hookLog, InlinePart(c.certificates, reports), NamedRuns(c.hook, wanted), dryRun);
    RunConcluded(job, reports, s, t, w.Disk());
    SavedAreGone(job, reports, s, t, saved, w.stateFile);
    KeptAround(w.setup, w.start, a, a, b, w.events, s.pending, s.disk, t.disk, w.Disk());
  }

  /** Nothing was done. */
  predicate Aborted(reports: seq<Report>, d: Durable, e: Durable) {
    reports == [] && e == d
  }

  /** `run`: load the state, process the selected certificates, run the named hooks, save. Whatever
      fails: the clients of each certificate that was guarded before validate after every step of
      the run, unless it is one that is to keep its key, has no entry, and is now installed for a
      key of other records; and that does break them if those records were not there before. */
  method Run(w: World, c: Configuration, isIp: Validation.IpTest, filter: Option<string>, force: bool, dryRun: bool)
    returns (r: Result<(), RunError>, reports: seq<Report>)
    requires w.Valid() && w.process.Down? && w.setup.certificates == c.certificates && Validation.ValidConfig(c, isIp)
    modifies w
    ensures w.Valid() && w.process.Down? && w.start == old(w.start)
    ensures ClientsServed(w.setup, w.start, old(w.events), w.events, old(w.Disk()), w.Disk())
    ensures RunDid(JobOf(w, filter, force, dryRun), reports, old(w.Disk()), w.Disk())
            || (r.Err? && Aborted(reports, old(w.Disk()), w.Disk()))
    ensures |reports| == |c.certificates| ==> LookedAt(c.certificates, filter, reports)
    ensures filter.Some? ==> OnlyConcerns(c.certificates, filter.value, old(w.Disk()), w.Disk())
    ensures AnnouncedFirst(c.certificates, old(w.Disk()), w.Disk())
    ensures w.hookLog == old(w.hookLog) + if |reports| == |c.certificates| then HooksOf(c, reports, dryRun) else []
    ensures |reports| == |c.certificates| && reports != [] ==>
              NamedHooksFound(w.hookSaw, NamedCount(c, reports, dryRun), w.Disk())
    ensures r.Ok? ==> |reports| == |c.certificates|
                      && TakenAreGone(c.certificates, reports, old(w.stateFile), w.stateFile)
    ensures w.reliable ==> r.Ok? && |reports| == |c.certificates|
  {
    hide Exec, RunDid, Validation.ValidConfig, ClientsKept, Safety.Guarded, Safety.KeptApart;
    hide LookedAt, OnlyConcerns, AnnouncedFirst, NamedCount, TakenAreGone;
    ghost var a, d := w.events, w.Disk();
    reports := [];
    NothingWanted(c.hook);
    var happens, loaded := w.Fate();
    if !loaded {
      r := Err(StateUnreadable);
      NothingRekeyed(w.setup, w.start, a, w.events, d.stateFile, d, w.Disk());
    } else {
      var state := new State(w.stateFile);
      w.Think(StartRun);
      ghost var b := w.events;
      var account;
      happens, account := w.Fate();
      if !account {
        r := Err(NoAccount);
        NothingRekeyed(w.setup, w.start, b, b, d.stateFile, d, d);
      } else {
        var saved;
        saved, reports := Work(w, c, isIp, state, filter, force, dryRun);
        r := if saved then Ok(()) else Err(StateNotSaved);
      }
      ghost var f, m := w.events, w.Disk();
      w.Think(EndRun);
      KeptAround(w.setup, w.start, a, b, f, w.events, d.stateFile, d, m, w.Disk());
    }
    KeptServes(w.setup, w.start, a, w.events, d, w.Disk());
    DidPlainly(JobOf(w, filter, force, dryRun), reports, d, w.Disk());
  }

  /** Of a run that did its work, and of one that failed before it began. */
  lemma DidPlainly(job: Job, reports: seq<Report>, d: Durable, e: Durable)
    requires RunDid(job, reports, d, e) || Aborted(reports, d, e)
    ensures |reports| == |job.Certs()| ==> LookedAt(job.Certs(), job.filter, reports)
    ensures job.filter.Some? ==> OnlyConcerns(job.Certs(), job.filter.value, d, e)
    ensures AnnouncedFirst(job.Certs(), d, e)
  {
    if RunDid(job, reports, d, e) {
      NamedRun(job, reports, d, e);
      RunAnnouncesFirst(job, reports, d, e);
    }
  }
}
