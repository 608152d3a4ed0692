/** Runs from start-up on which late contributions escape the plugin host (plugin_runtime.go). */
module PluginRuns {
  import opened Common
  import opened DependencyOrder
  import opened PluginModel
  import opened PluginTheorems

  /** A plugin without dependencies that may add hooks and starts without contributing anything. */
  const PLAIN := Manifest([], {}, true, true, true, true)

  const QUIET := Startup([], false, false)

  predicate AllPlain(f: Factories) { forall id :: id in f ==> f[id] == PLAIN }

  lemma PlainIsOrdered(f: Factories, order: seq<string>)
    requires AllPlain(f) && (forall x :: x in f <==> x in order) && forall i, j :: 0 <= i < j < |order| ==> order[i] != order[j]
    ensures TopologicalOrder(DependencyGraph(f), order)
  {
    assert forall id :: id in f ==> DependencyGraph(f)[id] == [];
  }

  lemma LoadPlain(s: State, f: Factories, id: string)
    requires AllPlain(f) && id in f
    ensures Load(s, f, id, QUIET) ==
      (s.(scopes := s.scopes + [Scope(id, [], {}, false)], runtimes := s.runtimes[id := Runtime(Running, Some(|s.scopes|))]), true)
  {
    var n, s1 := |s.scopes|, s.(scopes := s.scopes + [Scope(id, [], {}, false)]);
    assert s1 == PerformAll(s1, f, n, []);
    assert !Conflicts(s1, id, n);
  }

  lemma UnloadPlain(s: State, f: Factories, id: string)
    requires AllPlain(f) && IsRunning(s, id) && s.runtimes[id].scope.Some?
    requires var n := s.runtimes[id].scope.value; n < |s.scopes| && s.scopes[n] == Scope(id, [], {}, false)
    ensures var n := s.runtimes[id].scope.value;
      Unload(s, f, id, false).0 ==
        s.(scopes := s.scopes[n := Scope(id, [], {}, true)], runtimes := s.runtimes[id := Runtime(Unloaded, None)])
  {
    assert !HasRunningDependent(s, f, id);
  }

  ghost function QuietAll(f: Factories): map<string, Startup> { map id | id in f :: QUIET }

  /** The host after starting the plugins of `order`. */
  ghost function Fresh(f: Factories, order: seq<string>): State
    requires forall i :: 0 <= i < |order| ==> order[i] in f
  {
    Started(f, {}, order, map[], QuietAll(f))
  }

  lemma StartOneMore(s: State, f: Factories, ids: seq<string>, id: string)
    requires AllPlain(f) && id in f && forall i :: 0 <= i < |ids| ==> ids[i] in f
    ensures StartFrom(s, f, ids + [id], map[], QuietAll(f)) == Load(StartFrom(s, f, ids, map[], QuietAll(f)), f, id, QUIET).0
  {
    assert (ids + [id])[..|ids|] == ids;
  }

  lemma OneStarted(f: Factories, p: string)
    requires AllPlain(f) && p in f
    ensures Fresh(f, [p]) == State(map[p := Runtime(Running, Some(0))], [p], map[], map[], 0, [Scope(p, [], {}, false)], [])
  {
    var s := Initial({}).(order := [p]);
    StartOneMore(s, f, [], p);
    assert [] + [p] == [p];
    LoadPlain(s, f, p);
  }

  lemma TwoStarted(f: Factories, p: string, q: string)
    requires AllPlain(f) && p in f && q in f
    ensures Fresh(f, [p, q]) ==
      State(map[p := Runtime(Running, Some(0))][q := Runtime(Running, Some(1))], [p, q], map[], map[], 0,
            [Scope(p, [], {}, false), Scope(q, [], {}, false)], [])
  {
    var s := Initial({}).(order := [p, q]);
    StartOneMore(s, f, [], p);
    StartOneMore(s, f, [p], q);
    assert [] + [p] == [p] && [p] + [q] == [p, q];
    LoadPlain(s, f, p);
    LoadPlain(Load(s, f, p, QUIET).0, f, q);
  }

  lemma RunTwo(s: State, f: Factories, a: Event, b: Event)
    ensures Run(s, f, [a, b]) == Step(Step(s, f, a), f, b)
  {
    assert [a, b][..1] == [a] && [a][..0] == [];
    assert Run(s, f, [a]) == Step(s, f, a);
  }

  /** Started, unloaded, and then a hook through the kept scope: the plugin does not run, and the hook is nobody's to take back. */
  lemma LateHookStays(p: string)
    ensures var f := map[p := PLAIN];
      && TopologicalOrder(DependencyGraph(f), [p])
      && var s := Run(Fresh(f, [p]), f, [UnloadPlugin(p, false), Contribute(0, On)]);
         s.hooks == map[0 := p] && !IsRunning(s, p) && !Open(s, 0)
  {
    var f := map[p := PLAIN];
    PlainIsOrdered(f, [p]);
    OneStarted(f, p);
    UnloadPlain(Fresh(f, [p]), f, p);
    RunTwo(Fresh(f, [p]), f, UnloadPlugin(p, false), Contribute(0, On));
  }

  lemma LateHookIsNotHeld(p: string)
    requires p != CORE
    ensures !AllHeld(Run(Fresh(map[p := PLAIN], [p]), map[p := PLAIN], [UnloadPlugin(p, false), Contribute(0, On)]))
  {
    LateHookStays(p);
    var f := map[p := PLAIN];
    OneStarted(f, p);
    UnloadPlain(Fresh(f, [p]), f, p);
    RunTwo(Fresh(f, [p]), f, UnloadPlugin(p, false), Contribute(0, On));
    var s := Run(Fresh(f, [p]), f, [UnloadPlugin(p, false), Contribute(0, On)]);
    assert |s.scopes| == 1 && forall n :: !Open(s, n);
    assert !Held(s, p, Unhook(0));
    assert 0 in s.hooks;
  }

  /** Two running plugins that register the same command after their loads both keep it. */
  lemma LateRegistrationsClash(p: string, q: string, name: string)
    requires p != q
    ensures var f := map[p := PLAIN, q := PLAIN];
      && TopologicalOrder(DependencyGraph(f), [p, q])
      && var s := Run(Fresh(f, [p, q]), f, [Contribute(0, Register(Commands, name)), Contribute(1, Register(Commands, name))]);
         && IsRunning(s, p) && IsRunning(s, q) && (Commands, name) in ItemsOf(s, p) && (Commands, name) in ItemsOf(s, q)
         && !Exclusive(s)
  {
    var f, x := map[p := PLAIN, q := PLAIN], Register(Commands, name);
    PlainIsOrdered(f, [p, q]);
    TwoStarted(f, p, q);
    RunTwo(Fresh(f, [p, q]), f, Contribute(0, x), Contribute(1, x));
    var s := Run(Fresh(f, [p, q]), f, [Contribute(0, x), Contribute(1, x)]);
    assert (Commands, name) in s.scopes[0].items && (Commands, name) in s.scopes[1].items;
    BothHold(s, p, q, (Commands, name));
  }

  lemma BothHold(s: State, p: string, q: string, item: (Kind, string))
    requires p != q && IsRunning(s, p) && IsRunning(s, q) && item in ItemsOf(s, p) && item in ItemsOf(s, q)
    ensures !Exclusive(s)
  {
  }
}
