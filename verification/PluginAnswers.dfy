/** When plugins start, stop and contribute, told from the host's tables (plugin_runtime.go). */
module PluginAnswers {
  import opened Common
  import opened DependencyOrder
  import opened PluginModel
  import opened PluginTheorems

  /** A running plugin and its scope's registrations. */
  predicate Has(s: State, id: string, kind: Kind, name: string) {
    id in s.runtimes && s.runtimes[id].status == Running && s.runtimes[id].scope.Some?
    && s.runtimes[id].scope.value < |s.scopes| && (kind, name) in s.scopes[s.runtimes[id].scope.value].items
  }

  /** Every dependency runs in a version that fits, and there is a runner. */
  predicate MayStart(s: State, f: Factories, id: string) {
    id in f && f[id].hasRunner && forall i :: 0 <= i < |f[id].dependencies| ==>
      var d := f[id].dependencies[i]; d.id in s.runtimes && s.runtimes[d.id].status == Running && d.versionOk
  }

  ghost predicate Free(s: State, id: string, acts: seq<Act>) {
    forall other, kind, name :: other != id && Has(s, other, kind, name) ==> Register(kind, name) !in acts
  }

  // ---- Starting ----

  /** One contribution registers what it says, and touches no other scope and no runtime. */
  lemma RegistersOne(s: State, f: Factories, n: nat, act: Act)
    requires n < |s.scopes| && s.scopes[n].owner in f
    ensures var r := Perform(s, f, n, act);
      && r.scopes[n].items == s.scopes[n].items + (if act.Register? then {(act.kind, act.id)} else {})
      && r.runtimes == s.runtimes && r.order == s.order && r.scopes[n].closed == s.scopes[n].closed
      && |r.scopes| == |s.scopes| && r.scopes == s.scopes[n := r.scopes[n]]
  {
  }

  lemma {:induction false} RegistersAll(s: State, f: Factories, n: nat, acts: seq<Act>)
    requires n < |s.scopes| && s.scopes[n].owner in f
    ensures var r := PerformAll(s, f, n, acts);
      && r.scopes[n].items == s.scopes[n].items + Registrations(acts)
      && r.runtimes == s.runtimes && r.order == s.order && r.scopes[n].closed == s.scopes[n].closed
      && r.scopes == s.scopes[n := r.scopes[n]]
    decreases |acts|
  {
    if acts != [] {
      var rest, last := acts[..|acts| - 1], acts[|acts| - 1];
      RegistersAll(s, f, n, rest);
      RegistersOne(PerformAll(s, f, n, rest), f, n, last);
      MoreRegistrations(rest, last);
      assert rest + [last] == acts;
    }
  }

  function Registrations(acts: seq<Act>): set<(Kind, string)> {
    set i | 0 <= i < |acts| && acts[i].Register? :: (acts[i].kind, acts[i].id)
  }

  lemma MoreRegistrations(acts: seq<Act>, act: Act)
    ensures Registrations(acts + [act]) == Registrations(acts) + if act.Register? then {(act.kind, act.id)} else {}
  {
    var more := acts + [act];
    assert more[|acts|] == act;
    forall x | x in Registrations(acts) ensures x in Registrations(more) {
      var i :| 0 <= i < |acts| && acts[i].Register? && x == (acts[i].kind, acts[i].id);
      assert more[i] == acts[i];
    }
  }

  /** What the new scope of a start holds, and that all else in the tables of plugins and scopes is as before. */
  lemma BegunIs(s: State, f: Factories, id: string, acts: seq<Act>)
    requires id in f
    ensures var b := Begun(s, f, id, acts);
      && |b.scopes| == |s.scopes| + 1 && b.scopes[..|s.scopes|] == s.scopes && b.runtimes == s.runtimes && b.order == s.order
      && b.scopes[|s.scopes|].owner == id && !b.scopes[|s.scopes|].closed && b.scopes[|s.scopes|].items == Registrations(acts)
  {
    var s0 := s.(scopes := s.scopes + [Scope(id, [], {}, false)]);
    RegistersAll(s0, f, |s.scopes|, acts);
  }

  lemma ConflictExactly(s: State, f: Factories, id: string, acts: seq<Act>)
    requires id in f && ScopesMatch(s, f)
    ensures Conflicts(Begun(s, f, id, acts), id, |s.scopes|) <==> !Free(s, id, acts)
  {
    var n, b := |s.scopes|, Begun(s, f, id, acts);
    BegunIs(s, f, id, acts);
    if Conflicts(b, id, n) {
      var other :| other in b.runtimes && other != id && IsRunning(b, other)
        && b.runtimes[other].scope.Some? && b.runtimes[other].scope.value < |b.scopes|
        && !(b.scopes[b.runtimes[other].scope.value].items !! b.scopes[n].items);
      assert IsRunning(s, other);
      var m := s.runtimes[other].scope.value;
      assert b.scopes[m] == s.scopes[m];
      var x :| x in s.scopes[m].items && x in Registrations(acts);
      assert Has(s, other, x.0, x.1) && Register(x.0, x.1) in acts;
    }
    if !Free(s, id, acts) {
      var other, kind, name :| other != id && Has(s, other, kind, name) && Register(kind, name) in acts;
      var m := s.runtimes[other].scope.value;
      assert b.scopes[m] == s.scopes[m];
      assert (kind, name) in Registrations(acts) && IsRunning(b, other);
    }
  }

  /** A plugin starts exactly when it may, its start and its tools are sound, and nobody else runs with its registrations. */
  lemma LoadSucceedsExactly(s: State, f: Factories, id: string, start: Startup)
    requires ScopesMatch(s, f)
    ensures Load(s, f, id, start).1 <==> MayStart(s, f, id) && !start.fails && !start.badTool && Free(s, id, start.acts)
  {
    if id in f {
      ConflictExactly(s, f, id, start.acts);
      MayStartMeans(s, f, id);
    }
  }

  lemma MayStartMeans(s: State, f: Factories, id: string)
    requires id in f
    ensures MayStart(s, f, id) <==> DependenciesMet(s, f, id) && f[id].hasRunner
  {
    var ds := f[id].dependencies;
    if MayStart(s, f, id) {
      forall d | d in ds ensures IsRunning(s, d.id) && d.versionOk { var i :| 0 <= i < |ds| && ds[i] == d; }
    }
  }

  /** A started plugin is recorded as running with its new scope open; one that did not start as failed, with that scope closed. */
  lemma LoadRecords(s: State, f: Factories, id: string, start: Startup)
    ensures var (r, ok) := Load(s, f, id, start);
      var n := |s.scopes|;
      && (id !in f ==> r == s && !ok)
      && (id in f ==>
            && id in r.runtimes && r.runtimes == s.runtimes[id := if ok then Runtime(Running, Some(n)) else Runtime(Failed, None)]
            && r.order == s.order && |r.scopes| == n + (if MayStart(s, f, id) then 1 else 0) && r.scopes[..n] == s.scopes
            && (MayStart(s, f, id) ==> r.scopes[n].owner == id && r.scopes[n].closed == !ok
                                       && r.scopes[n].items == Registrations(start.acts)))
  {
    if id in f {
      MayStartMeans(s, f, id);
      BegunIs(s, f, id, start.acts);
      CloseScopeFrame(Begun(s, f, id, start.acts), |s.scopes|);
    }
  }

  // ---- A failed start leaves no trace ----

  /** What a start has added so far can be told from what was there, and its scope will take it back. */
  ghost predicate Added(s: State, b: State, id: string, n: nat) {
    && n < |b.scopes| && b.scopes[n].owner == id && !b.scopes[n].closed && s.nextHook <= b.nextHook
    && (forall c :: c in s.capabilities ==> c in b.capabilities && b.capabilities[c] == s.capabilities[c])
    && (forall c :: c in b.capabilities && c !in s.capabilities ==> b.capabilities[c] == id && Withdraw(c) in b.scopes[n].effects)
    && (forall h :: h in s.hooks ==> h in b.hooks && b.hooks[h] == s.hooks[h])
    && (forall h :: h in b.hooks && h !in s.hooks ==> Unhook(h) in b.scopes[n].effects)
    && (forall e :: e in b.scopes[n].effects && e.Unhook? ==> s.nextHook <= e.id < b.nextHook)
  }

  predicate OwnsNothing(s: State, id: string) {
    (forall c :: c in s.capabilities ==> s.capabilities[c] != id) && (forall h :: h in s.hooks ==> h < s.nextHook)
  }

  lemma OneMoreAdded(s: State, b: State, f: Factories, id: string, n: nat, act: Act)
    requires OwnsNothing(s, id) && Added(s, b, id, n) && id in f
    ensures Added(s, Perform(b, f, n, act), id, n)
  {
  }

  lemma {:induction false} AllAdded(s: State, b: State, f: Factories, id: string, n: nat, acts: seq<Act>)
    requires OwnsNothing(s, id) && Added(s, b, id, n) && id in f
    ensures Added(s, PerformAll(b, f, n, acts), id, n)
    decreases |acts|
  {
    if acts != [] {
      AllAdded(s, b, f, id, n, acts[..|acts| - 1]);
      OneMoreAdded(s, PerformAll(b, f, n, acts[..|acts| - 1]), f, id, n, acts[|acts| - 1]);
    }
  }

  /** Closing the scope takes back all that was added, and nothing else. */
  lemma AddedIsTakenBack(s: State, b: State, id: string, n: nat)
    requires OwnsNothing(s, id) && Added(s, b, id, n)
    ensures CloseScope(b, n).capabilities == s.capabilities && CloseScope(b, n).hooks == s.hooks
  {
    var shut := b.(scopes := b.scopes[n := b.scopes[n].(closed := true)]);
    RunBackTakesBack(shut, n, b.scopes[n].effects);
    RunBackUnhooks(shut, n, b.scopes[n].effects);
    var r := CloseScope(b, n);
    assert r.capabilities.Keys == s.capabilities.Keys && r.hooks.Keys == s.hooks.Keys;
  }

  /** A start that fails, however far it got, leaves the capabilities and the hooks as they were. */
  lemma FailedLoadLeavesNoTrace(s: State, f: Factories, id: string, start: Startup)
    requires Lifecycle(s, f) && AllHeld(s) && !IsRunning(s, id) && !Load(s, f, id, start).1
    ensures Load(s, f, id, start).0.capabilities == s.capabilities && Load(s, f, id, start).0.hooks == s.hooks
  {
    if MayStart(s, f, id) {
      MayStartMeans(s, f, id);
      OwnsNothingIdle(s, f, id);
      var n, s0 := |s.scopes|, s.(scopes := s.scopes + [Scope(id, [], {}, false)]);
      AllAdded(s, s0, f, id, n, start.acts);
      AddedIsTakenBack(s, Begun(s, f, id, start.acts), id, n);
    } else if id in f {
      MayStartMeans(s, f, id);
    }
  }

  lemma OwnsNothingIdle(s: State, f: Factories, id: string)
    requires Lifecycle(s, f) && AllHeld(s) && !IsRunning(s, id) && id in f
    ensures OwnsNothing(s, id)
  {
    forall c | c in s.capabilities ensures s.capabilities[c] != id { IdleHoldsNothing(s, f, id, Withdraw(c)); }
  }

  lemma IdleHoldsNothing(s: State, f: Factories, id: string, e: Effect)
    requires Lifecycle(s, f) && !IsRunning(s, id)
    ensures !Held(s, id, e)
  {
    forall n ensures !HeldBy(s, n, id, e) { assert Open(s, n) ==> IsRunning(s, s.scopes[n].owner); }
  }

  /** Whether a plugin is started: the configuration's word on it, or else the manifest's. */
  lemma StartOneExactly(s: State, f: Factories, id: string, enabled: map<string, bool>, start: Startup)
    requires ScopesMatch(s, f) && id in f
    ensures var r, on := StartOne(s, f, id, enabled, start), if id in enabled then enabled[id] else f[id].defaultEnabled;
      && id in r.runtimes && (r.runtimes[id].status == Disabled <==> !on)
      && (r.runtimes[id].status == Running <==>
            (on && MayStart(s, f, id) && !start.fails && !start.badTool && Free(s, id, start.acts)))
      && (!on ==> r == s.(runtimes := s.runtimes[id := Runtime(Disabled, None)]))
  {
    LoadSucceedsExactly(s, f, id, start);
    LoadRecords(s, f, id, start);
  }

  /** Starting goes through the order: each plugin is left as its own turn left it, whatever starts after it. */
  lemma {:induction false} StartedInTurn(
      s: State, f: Factories, ids: seq<string>, enabled: map<string, bool>, starts: map<string, Startup>, i: nat)
    requires (forall j :: 0 <= j < |ids| ==> ids[j] in f && ids[j] in starts) && i < |ids|
    requires forall j :: i < j < |ids| ==> ids[j] != ids[i]
    ensures var before, r := StartFrom(s, f, ids[..i], enabled, starts), StartFrom(s, f, ids, enabled, starts);
      var own := StartOne(before, f, ids[i], enabled, starts[ids[i]]);
      ids[i] in r.runtimes && ids[i] in own.runtimes && r.runtimes[ids[i]] == own.runtimes[ids[i]]
    decreases |ids|
  {
    var n := |ids| - 1;
    var last := StartFrom(s, f, ids[..n], enabled, starts);
    LoadRecords(last, f, ids[n], starts[ids[n]]);
    if i < n {
      assert ids[..n][..i] == ids[..i];
      StartedInTurn(s, f, ids[..n], enabled, starts, i);
    }
  }

  // ---- Stopping ----

  ghost predicate NeededBy(s: State, f: Factories, id: string, other: string) {
    other != id && other in s.runtimes && s.runtimes[other].status == Running && other in f
    && exists i :: 0 <= i < |f[other].dependencies| && f[other].dependencies[i].id == id
  }

  /** A stop is refused exactly when the plugin does not run or another running one depends on it; else it takes effect. */
  lemma UnloadExactly(s: State, f: Factories, id: string, fails: bool)
    requires ScopesMatch(s, f)
    ensures var (r, o) := Unload(s, f, id, fails);
      var runs, needed := id in s.runtimes && s.runtimes[id].status == Running, exists other :: NeededBy(s, f, id, other);
      && (o == NotRunning <==> !runs) && (o == Required <==> runs && needed)
      && (o == StopFailed <==> runs && !needed && fails) && (o == Stopped.Stopped <==> runs && !needed && !fails)
      && (o == NotRunning || o == Required ==> r == s)
      && (runs && !needed ==>
            && r.runtimes == s.runtimes[id := Runtime(if fails then Failed else Unloaded, None)]
            && var n := s.runtimes[id].scope.value;
              n < |s.scopes| && r.scopes == s.scopes[n := s.scopes[n].(closed := true)] && !s.scopes[n].closed)
  {
    DependentExactly(s, f, id);
    if IsRunning(s, id) { CloseScopeFrame(s, s.runtimes[id].scope.value); }
  }

  lemma DependentExactly(s: State, f: Factories, id: string)
    ensures HasRunningDependent(s, f, id) <==> exists other :: NeededBy(s, f, id, other)
  {
    if other :| other in s.runtimes && other != id && IsRunning(s, other) && other in f && id in DependencyIDs(f[other].dependencies) {
      var i :| 0 <= i < |f[other].dependencies| && DependencyIDs(f[other].dependencies)[i] == id;
      assert NeededBy(s, f, id, other);
    }
    if other :| NeededBy(s, f, id, other) {
      var i :| 0 <= i < |f[other].dependencies| && f[other].dependencies[i].id == id;
      assert DependencyIDs(f[other].dependencies)[i] == id;
    }
  }

  /** How closing changes the record of one plugin. */
  function Retired(r: Runtime, id: string, failing: set<string>): Runtime {
    if r.status != Running then r else Runtime(if id in failing then Failed else Unloaded, None)
  }

  ghost predicate AllRetired(s: State, r: State, failing: set<string>) {
    r.runtimes.Keys == s.runtimes.Keys && forall id :: id in s.runtimes ==> r.runtimes[id] == Retired(s.runtimes[id], id, failing)
  }

  lemma OneRetired(s: State, s1: State, r: State, id: string, failing: set<string>)
    requires id in s.runtimes && s1.runtimes == s.runtimes[id := Retired(s.runtimes[id], id, failing)]
    requires AllRetired(s1, r, failing)
    ensures AllRetired(s, r, failing)
  {
    assert forall x :: x in s.runtimes ==> Retired(s1.runtimes[x], x, failing) == Retired(s.runtimes[x], x, failing);
  }

  /** Closing leaves every plugin that ran as unloaded, or as failed if its stop fails, and every other one as it was. */
  lemma CloseRecords(s: State, f: Factories, k: nat, failing: set<string>)
    requires Lifecycle(s, f) && DependentsLater(f, s.order) && k <= |s.order| && RunsUpTo(s, k)
    ensures var r := CloseFrom(s, f, k, failing).0;
      r.runtimes.Keys == s.runtimes.Keys && forall id :: id in s.runtimes ==>
        r.runtimes[id] == if s.runtimes[id].status != Running then s.runtimes[id]
                          else Runtime(if id in failing then Failed else Unloaded, None)
  {
    ClosedAreRetired(s, f, k, failing);
  }

  lemma {:induction false} ClosedAreRetired(s: State, f: Factories, k: nat, failing: set<string>)
    requires Lifecycle(s, f) && DependentsLater(f, s.order) && k <= |s.order| && RunsUpTo(s, k)
    ensures AllRetired(s, CloseFrom(s, f, k, failing).0, failing)
    decreases k
  {
    if k > 0 {
      var id := s.order[k - 1];
      if !IsRunning(s, id) {
        assert s.order[..k] == s.order[..k - 1] + [id];
        ClosedAreRetired(s, f, k - 1, failing);
      } else {
        var s1 := Unload(s, f, id, id in failing).0;
        StopGoesOn(s, f, k, failing);
        UnloadExactly(s, f, id, id in failing);
        ClosedAreRetired(s1, f, k - 1, failing);
        CloseGoesOn(s, f, k, failing);
        OneRetired(s, s1, CloseFrom(s1, f, k - 1, failing).0, id, failing);
      }
    } else {
      forall id | id in s.runtimes ensures s.runtimes[id].status != Running { NoneRunsUpToZero(s, id); }
    }
  }

  lemma NoneRunsUpToZero(s: State, id: string)
    requires RunsUpTo(s, 0)
    ensures !IsRunning(s, id)
  {
  }

  /** A reload of a reloadable plugin that stops cleanly leaves it running or failed; any other is refused or a plain stop. */
  lemma ReloadExactly(s: State, f: Factories, id: string, fails: bool, start: Startup)
    requires Lifecycle(s, f) && id in s.order
    ensures var r, runs := Reload(s, f, id, fails, start), id in s.runtimes && s.runtimes[id].status == Running;
      var needed := exists other :: NeededBy(s, f, id, other);
      && (!(id in f && f[id].reloadable && runs && !needed) ==> r == s)
      && (id in f && f[id].reloadable && runs && !needed ==>
            && id in r.runtimes && r.runtimes[id].status in {Running, Failed}
            && (r.runtimes[id].status == Running <==>
                  (!fails && !start.fails && !start.badTool && f[id].hasRunner && Free(s, id, start.acts)
                   && forall i :: 0 <= i < |f[id].dependencies| ==> f[id].dependencies[i].id != id)))
  {
    UnloadExactly(s, f, id, fails);
    var s1 := Unload(s, f, id, fails).0;
    if Reload(s, f, id, fails, start) != s && !fails {
      UnloadKeepsInv(s, f, id, fails);
      LoadSucceedsExactly(s1, f, id, start);
      LoadRecords(s1, f, id, start);
      OthersKeep(s, s1, f, id, start.acts);
    }
  }

  lemma OthersKeep(s: State, s1: State, f: Factories, id: string, acts: seq<Act>)
    requires Lifecycle(s, f) && IsRunning(s, id) && !IsRunning(s1, id) && id in f
    requires id in s1.runtimes && s1.runtimes == s.runtimes[id := s1.runtimes[id]]
    requires var n := s.runtimes[id].scope.value;
      n < |s.scopes| && s1.scopes == s.scopes[n := s.scopes[n].(closed := true)]
    ensures Free(s1, id, acts) <==> Free(s, id, acts)
    ensures MayStart(s1, f, id) <==> f[id].hasRunner && forall i :: 0 <= i < |f[id].dependencies| ==> f[id].dependencies[i].id != id
  {
    assert forall other, kind, name :: other != id ==> (Has(s1, other, kind, name) <==> Has(s, other, kind, name));
    var ds := f[id].dependencies;
    forall i | 0 <= i < |ds| ensures IsRunning(s, ds[i].id) && ds[i].versionOk { assert ds[i] in ds; }
  }

  // ---- Contributing ----

  /** A capability is provided exactly when declared and not another's; a hook is added exactly when hooks are declared. */
  lemma ContributionExactly(s: State, f: Factories, n: nat, act: Act)
    requires n < |s.scopes| && s.scopes[n].owner in f
    ensures var r, owner := Perform(s, f, n, act), s.scopes[n].owner;
      match act
      case Provide(name) =>
        var granted := name in f[owner].provided && (name !in s.capabilities || s.capabilities[name] == owner);
        && r.capabilities == (if granted then s.capabilities[name := owner] else s.capabilities) && r.hooks == s.hooks
        && r.scopes[n].effects == s.scopes[n].effects + (if granted && !s.scopes[n].closed then [Withdraw(name)] else [])
      case On =>
        && r.capabilities == s.capabilities
        && r.hooks == (if f[owner].hooks then s.hooks[s.nextHook := owner] else s.hooks)
        && r.nextHook == s.nextHook + (if f[owner].hooks then 1 else 0)
        && r.scopes[n].effects == s.scopes[n].effects + (if f[owner].hooks && !s.scopes[n].closed then [Unhook(s.nextHook)] else [])
      case Dispose(tag) =>
        && r.capabilities == s.capabilities && r.hooks == s.hooks
        && r.scopes[n].effects == s.scopes[n].effects + (if s.scopes[n].closed then [] else [Custom(tag)])
      case Register(kind, name) =>
        && r.capabilities == s.capabilities && r.hooks == s.hooks && r.scopes[n].effects == s.scopes[n].effects
        && r.scopes[n].items == s.scopes[n].items + {(kind, name)}
  {
  }
}
