/** Hooks after renewal (src/hooks.rs, src/renew.rs:111-129): which are started, how often and
    in what order. A hook that fails is reported and does not stop the ones after it. */
module Hooks {
  import opened Config
  import opened World
  import opened Validation

  /** The inline hooks of a certificate, in their order. */
  function InlineRuns(cert: Certificate): seq<HookRun> {
    seq(|cert.inlineHooks|, (k: nat) => Inline(cert.name, k))
  }

  /** The named hooks that are wanted, in the order they are defined. */
  function NamedRuns(hooks: seq<NamedHook>, wanted: seq<string>): seq<HookRun> {
    if hooks == [] then []
    else
      var last := hooks[|hooks| - 1];
      NamedRuns(hooks[..|hooks| - 1], wanted) + if last.name in wanted then [Named(last.name)] else []
  }

  /** `run_hooks`: every hook is started in turn and has one result; a dry run starts none. */
  method RunHooks(w: World, hooks: seq<HookRun>, dryRun: bool) returns (results: seq<bool>)
    requires w.Valid()
    modifies w
    ensures w.Valid() && Kept(w) && Passed(old(w.Cur()), w.Cur())
    ensures |results| == |hooks|
    ensures w.hookLog == old(w.hookLog) + if dryRun then [] else hooks
    ensures FoundBy(old(w.hookSaw), w.hookSaw, if dryRun then 0 else |hooks|, old(w.Disk()))
  {
    results := [];
    for k := 0 to |hooks|
      invariant w.Valid() && Kept(w) && Passed(old(w.Cur()), w.Cur())
      invariant |results| == k
      invariant w.hookLog == old(w.hookLog) + if dryRun then [] else hooks[..k]
      invariant FoundBy(old(w.hookSaw), w.hookSaw, if dryRun then 0 else k, old(w.Disk()))
    {
      var ok := true;
      if !dryRun {
        ok := w.StartHook(hooks[k]);
      }
      results := results + [ok];
    }
    assert hooks[..|hooks|] == hooks;
  }

  /** The loop over `[[hook]]` definitions after all renewals. */
  method RunNamedHooks(w: World, hooks: seq<NamedHook>, wanted: seq<string>, dryRun: bool)
    requires w.Valid()
    modifies w
    ensures w.Valid() && Kept(w) && Passed(old(w.Cur()), w.Cur())
    ensures w.hookLog == old(w.hookLog) + if dryRun then [] else NamedRuns(hooks, wanted)
    ensures FoundBy(old(w.hookSaw), w.hookSaw, if dryRun then 0 else |NamedRuns(hooks, wanted)|, old(w.Disk()))
  {
    for k := 0 to |hooks|
      invariant w.Valid() && Kept(w) && Passed(old(w.Cur()), w.Cur())
      invariant w.hookLog == old(w.hookLog) + if dryRun then [] else NamedRuns(hooks[..k], wanted)
      invariant FoundBy(old(w.hookSaw), w.hookSaw, if dryRun then 0 else |NamedRuns(hooks[..k], wanted)|, old(w.Disk()))
    {
      assert hooks[..k + 1][..k] == hooks[..k];
      if hooks[k].name !in wanted {
        continue;
      }
      var results := RunHooks(w, [Named(hooks[k].name)], dryRun);
    }
    assert hooks[..|hooks|] == hooks;
  }

  /** The positions of the wanted definitions. */
  function Positions(hooks: seq<NamedHook>, wanted: seq<string>): (at: seq<int>)
    ensures forall t :: 0 <= t < |at| ==> 0 <= at[t] < |hooks| && hooks[at[t]].name in wanted
    ensures forall s, t :: 0 <= s < t < |at| ==> at[s] < at[t]
    ensures forall k :: 0 <= k < |hooks| && hooks[k].name in wanted ==> k in at
  {
    if hooks == [] then []
    else
      var n := |hooks| - 1;
      var before := Positions(hooks[..n], wanted);
      assert forall k :: 0 <= k < n ==> hooks[..n][k] == hooks[k];
      if hooks[n].name in wanted then before + [n] else before
  }

  /** The started hooks follow the definitions: each comes from a definition that is wanted,
      positions increase, and no wanted definition is passed over. */
  lemma {:induction false} NamedRunsFollowDefinitions(hooks: seq<NamedHook>, wanted: seq<string>)
    ensures |NamedRuns(hooks, wanted)| == |Positions(hooks, wanted)|
    ensures forall t :: 0 <= t < |Positions(hooks, wanted)| ==>
              NamedRuns(hooks, wanted)[t] == Named(hooks[Positions(hooks, wanted)[t]].name)
  {
    if hooks != [] {
      NamedRunsFollowDefinitions(hooks[..|hooks| - 1], wanted);
    }
  }

  lemma NamedRunsMembers(hooks: seq<NamedHook>, wanted: seq<string>, h: string)
    ensures Named(h) in NamedRuns(hooks, wanted) <==> h in wanted && h in HookNames(hooks)
  {
  }

  lemma NamedRunsDistinct(hooks: seq<NamedHook>, wanted: seq<string>, a: nat, b: nat)
    requires DistinctNames(HookNames(hooks)) && a < b < |NamedRuns(hooks, wanted)|
    ensures NamedRuns(hooks, wanted)[a] != NamedRuns(hooks, wanted)[b]
  {
    NamedRunsFollowDefinitions(hooks, wanted);
    var at := Positions(hooks, wanted);
    assert HookNames(hooks)[at[a]] != HookNames(hooks)[at[b]];
  }

  /** Over a validated configuration, the named hooks started are exactly those some list of
      renewed certificates asks for, each once and in definition order, however often and in
      whatever order they are asked for. */
  lemma NamedHooksExactly(hooks: seq<NamedHook>, wanted: seq<string>)
    requires ValidHooks(hooks) && forall h :: h in wanted ==> h in HookNames(hooks)
    ensures forall h :: Named(h) in NamedRuns(hooks, wanted) <==> h in wanted
    ensures forall a, b :: 0 <= a < b < |NamedRuns(hooks, wanted)| ==>
              NamedRuns(hooks, wanted)[a] != NamedRuns(hooks, wanted)[b]
    ensures forall more :: (forall h :: h in more <==> h in wanted) ==>
              NamedRuns(hooks, more) == NamedRuns(hooks, wanted)
  {
    forall h ensures Named(h) in NamedRuns(hooks, wanted) <==> h in wanted {
      NamedRunsMembers(hooks, wanted, h);
    }
    forall a: nat, b: nat | a < b < |NamedRuns(hooks, wanted)|
      ensures NamedRuns(hooks, wanted)[a] != NamedRuns(hooks, wanted)[b]
    {
      NamedRunsDistinct(hooks, wanted, a, b);
    }
    forall more: seq<string> | forall h :: h in more <==> h in wanted
      ensures NamedRuns(hooks, more) == NamedRuns(hooks, wanted)
    {
      SameWanted(hooks, more, wanted);
    }
  }

  lemma {:induction false} SameWanted(hooks: seq<NamedHook>, a: seq<string>, b: seq<string>)
    requires forall h :: h in a <==> h in b
    ensures NamedRuns(hooks, a) == NamedRuns(hooks, b)
  {
    if hooks != [] {
      SameWanted(hooks[..|hooks| - 1], a, b);
    }
  }
}
