/** The plugin host in place: its maps, scopes and hooks, changed step by step (plugin_runtime.go). */
module PluginHost {
  import opened Common
  import opened DependencyOrder
  import opened PluginModel

  class Host {
    const factories: Factories
    var runtimes: map<string, Runtime>
    var order: seq<string>
    var capabilities: map<string, string>
    var hooks: map<nat, string>
    var nextHook: nat
    var scopes: seq<Scope>
    ghost var ran: seq<(nat, Effect)>

    constructor (factories: Factories, core: set<string>)
      ensures View() == Initial(core) && this.factories == factories
    {
      this.factories := factories;
      runtimes, order, hooks, nextHook, scopes, ran := map[], [], map[], 0, [], [];
      capabilities := map c | c in core :: CORE;
    }

    ghost function View(): State reads this {
      State(runtimes, order, capabilities, hooks, nextHook, scopes, ran)
    }

    /** Fails on a closed scope, as the caller's effect list is frozen then. */
    method Attach(n: nat, e: Effect)
      requires n < |scopes|
      modifies this`scopes
      ensures View() == AddEffect(old(View()), n, e)
    {
      if !scopes[n].closed { scopes := scopes[n := scopes[n].(effects := scopes[n].effects + [e])]; }
    }

    method Contribute(n: nat, act: Act)
      requires n < |scopes| && scopes[n].owner in factories
      modifies this`scopes, this`capabilities, this`hooks, this`nextHook
      ensures View() == Perform(old(View()), factories, n, act)
    {
      var owner := scopes[n].owner;
      match act
      case Provide(name) =>
        if name !in factories[owner].provided { return; }
        if name in capabilities && capabilities[name] != owner { return; }
        capabilities := capabilities[name := owner];
        Attach(n, Withdraw(name));
      case On =>
        if !factories[owner].hooks { return; }
        var id := nextHook;
        nextHook := nextHook + 1;
        hooks := hooks[id := owner];
        Attach(n, Unhook(id));
      case Dispose(tag) => Attach(n, Custom(tag));
      case Register(kind, id) => scopes := scopes[n := scopes[n].(items := scopes[n].items + {(kind, id)})];
    }

    method ContributeAll(n: nat, acts: seq<Act>)
      requires n < |scopes| && scopes[n].owner in factories
      modifies this`scopes, this`capabilities, this`hooks, this`nextHook
      ensures View() == PerformAll(old(View()), factories, n, acts)
    {
      var i := 0;
      while i < |acts|
        invariant 0 <= i <= |acts|
        invariant View() == PerformAll(old(View()), factories, n, acts[..i])
      {
        assert acts[..i + 1][..i] == acts[..i];
        Contribute(n, acts[i]);
        i := i + 1;
      }
      assert acts[..i] == acts;
    }

    method RunDisposer(n: nat, e: Effect)
      requires n < |scopes|
      modifies this`capabilities, this`hooks, this`ran
      ensures View() == RunEffect(old(View()), n, e)
    {
      match e {
        case Withdraw(name) =>
          if name in capabilities && capabilities[name] == scopes[n].owner { capabilities := capabilities - {name}; }
        case Unhook(id) => hooks := hooks - {id};
        case Custom(_) =>
      }
      ran := ran + [(n, e)];
    }

    method CloseContext(n: nat)
      requires n < |scopes|
      modifies this`scopes, this`capabilities, this`hooks, this`ran
      ensures View() == CloseScope(old(View()), n)
    {
      if scopes[n].closed { return; }
      scopes := scopes[n := scopes[n].(closed := true)];
      ghost var shut := View();
      var effects := scopes[n].effects;
      var i := |effects|;
      assert effects[..i] == effects;
      while i > 0
        invariant 0 <= i <= |effects| && scopes == shut.scopes
        invariant RunBack(shut, n, effects) == RunBack(View(), n, effects[..i])
        decreases i
      {
        i := i - 1;
        assert effects[..i + 1][..i] == effects[..i];
        RunDisposer(n, effects[i]);
      }
    }

    method CanLoad(id: string) returns (ok: bool)
      requires id in factories
      ensures ok <==> DependenciesMet(View(), factories, id)
    {
      var ds := factories[id].dependencies;
      var i := 0;
      while i < |ds|
        invariant 0 <= i <= |ds|
        invariant forall j :: 0 <= j < i ==> IsRunning(View(), ds[j].id) && ds[j].versionOk
      {
        if !(ds[i].id in runtimes && runtimes[ds[i].id].status == Running && ds[i].versionOk) {
          assert ds[i] in ds && !(IsRunning(View(), ds[i].id) && ds[i].versionOk);
          return false;
        }
        i := i + 1;
      }
      ok := true;
    }

    /** Looks for a running plugin that has one of scope `n`'s registrations. */
    method HasConflict(id: string, n: nat) returns (found: bool)
      requires n < |scopes|
      ensures found <==> Conflicts(View(), id, n)
    {
      var rest := runtimes.Keys;
      while rest != {}
        invariant rest <= runtimes.Keys
        invariant forall other ::
          (other in runtimes && other !in rest && other != id && IsRunning(View(), other)
           && runtimes[other].scope.Some? && runtimes[other].scope.value < |scopes|)
          ==> scopes[runtimes[other].scope.value].items !! scopes[n].items
        decreases rest
      {
        var other :| other in rest;
        rest := rest - {other};
        if other != id && runtimes[other].status == Running && runtimes[other].scope.Some?
           && runtimes[other].scope.value < |scopes| && !(scopes[runtimes[other].scope.value].items !! scopes[n].items) {
          assert IsRunning(View(), other);
          return true;
        }
      }
      found := false;
    }

    method LoadPlugin(id: string, start: Startup) returns (ok: bool)
      modifies this
      ensures (View(), ok) == Load(old(View()), factories, id, start)
    {
      if id !in factories { return false; }
      ok := CanLoad(id);
      if !ok || !factories[id].hasRunner {
        runtimes := runtimes[id := Runtime(Failed, None)];
        return false;
      }
      var n := |scopes|;
      scopes := scopes + [Scope(id, [], {}, false)];
      ContributeAll(n, start.acts);
      var refused := start.fails || start.badTool;
      if !refused { refused := HasConflict(id, n); }
      if refused {
        CloseContext(n);
        runtimes := runtimes[id := Runtime(Failed, None)];
        return false;
      }
      runtimes := runtimes[id := Runtime(Running, Some(n))];
      ok := true;
    }

    /** Looks for a running plugin that depends on `id`. */
    method FindDependent(id: string) returns (found: bool)
      ensures found <==> HasRunningDependent(View(), factories, id)
    {
      var rest := runtimes.Keys;
      while rest != {}
        invariant rest <= runtimes.Keys
        invariant forall other ::
          (other in runtimes && other !in rest && other != id && IsRunning(View(), other) && other in factories)
          ==> id !in DependencyIDs(factories[other].dependencies)
        decreases rest
      {
        var other :| other in rest;
        rest := rest - {other};
        if other != id && runtimes[other].status == Running && other in factories
           && id in DependencyIDs(factories[other].dependencies) {
          assert IsRunning(View(), other);
          return true;
        }
      }
      found := false;
    }

    method UnloadPlugin(id: string, fails: bool) returns (outcome: Stopped)
      modifies this`runtimes, this`scopes, this`capabilities, this`hooks, this`ran
      ensures (View(), outcome) == Unload(old(View()), factories, id, fails)
    {
      if !(id in runtimes && runtimes[id].status == Running) { return NotRunning; }
      var needed := FindDependent(id);
      if needed { return Required; }
      var scope := runtimes[id].scope;
      if scope.Some? && scope.value < |scopes| { CloseContext(scope.value); }
      runtimes := runtimes[id := Runtime(if fails then Failed else Unloaded, None)];
      outcome := if fails then StopFailed else Stopped.Stopped;
    }

    method ReloadPlugin(id: string, fails: bool, start: Startup)
      modifies this
      ensures View() == Reload(old(View()), factories, id, fails, start)
    {
      if id !in runtimes || id !in factories || !factories[id].reloadable { return; }
      var outcome := UnloadPlugin(id, fails);
      if outcome != Stopped.Stopped { return; }
      var _ := LoadPlugin(id, start);
    }

    /** Sorts the plugins and starts the enabled ones; a defective graph starts none. */
    method StartAll(ids: seq<string>, enabled: map<string, bool>, starts: map<string, Startup>) returns (failure: Option<Failure>)
      requires (forall x :: x in ids <==> x in factories) && forall x :: x in factories ==> x in starts
      modifies this
      ensures failure.Some? <==> Defective(DependencyGraph(factories))
      ensures failure.Some? ==> View() == old(View())
      ensures failure.None? ==>
        && TopologicalOrder(DependencyGraph(factories), order)
        && (forall i :: 0 <= i < |order| ==> order[i] in factories && order[i] in starts)
        && View() == StartFrom(old(View()).(order := order), factories, order, enabled, starts)
    {
      var sorted;
      sorted, failure := DependencyOrder.DependencyOrder(DependencyGraph(factories), ids);
      if failure.Some? { return; }
      order := sorted;
      StartInOrder(enabled, starts);
    }

    method StartInOrder(enabled: map<string, bool>, starts: map<string, Startup>)
      requires forall i :: 0 <= i < |order| ==> order[i] in factories && order[i] in starts
      modifies this
      ensures View() == StartFrom(old(View()), factories, old(order), enabled, starts) && order == old(order)
    {
      for i := 0 to |order|
        invariant order == old(order) && View() == StartFrom(old(View()), factories, order[..i], enabled, starts)
      {
        StartFromSnoc(old(View()), factories, order, i, enabled, starts);
        StartPlugin(order[i], enabled, starts[order[i]]);
      }
      assert order[..|order|] == order;
    }

    method StartPlugin(id: string, enabled: map<string, bool>, start: Startup)
      requires id in factories
      modifies this
      ensures View() == StartOne(old(View()), factories, id, enabled, start) && order == old(order)
    {
      if if id in enabled then enabled[id] else factories[id].defaultEnabled {
        LoadKeepsOrder(View(), factories, id, start);
        var _ := LoadPlugin(id, start);
      } else {
        runtimes := runtimes[id := Runtime(Disabled, None)];
      }
    }

    method CloseAll(failing: set<string>) returns (outcomes: seq<Stopped>)
      modifies this
      ensures (View(), outcomes) == CloseFrom(old(View()), factories, |old(order)|, failing)
    {
      outcomes := [];
      var k := |order|;
      assert forall os: seq<Stopped> :: outcomes + os == os;
      while k > 0
        invariant 0 <= k <= |order| && order == old(order)
        invariant var (end, os) := CloseFrom(View(), factories, k, failing);
          CloseFrom(old(View()), factories, |old(order)|, failing) == (end, outcomes + os)
        decreases k
      {
        var id := order[k - 1];
        if id in runtimes && runtimes[id].status == Running {
          ghost var os := CloseFrom(View(), factories, k, failing).1;
          UnloadKeepsOrder(View(), factories, id, id in failing);
          var o := UnloadPlugin(id, id in failing);
          assert outcomes + os == (outcomes + [o]) + os[1..];
          outcomes := outcomes + [o];
        }
        k := k - 1;
      }
      assert outcomes + [] == outcomes;
    }
  }

  lemma StartFromSnoc(s: State, f: Factories, ids: seq<string>, i: nat, enabled: map<string, bool>, starts: map<string, Startup>)
    requires i < |ids| && forall k :: 0 <= k < |ids| ==> ids[k] in f && ids[k] in starts
    ensures StartFrom(s, f, ids[..i + 1], enabled, starts) ==
      StartOne(StartFrom(s, f, ids[..i], enabled, starts), f, ids[i], enabled, starts[ids[i]])
  {
    assert ids[..i + 1][..i] == ids[..i];
  }

  lemma {:induction false} PerformAllKeepsOrder(s: State, f: Factories, n: nat, acts: seq<Act>)
    requires n < |s.scopes| && s.scopes[n].owner in f
    ensures PerformAll(s, f, n, acts).order == s.order
    decreases |acts|
  {
    if acts != [] { PerformAllKeepsOrder(s, f, n, acts[..|acts| - 1]); }
  }

  lemma LoadKeepsOrder(s: State, f: Factories, id: string, start: Startup)
    ensures Load(s, f, id, start).0.order == s.order
  {
    if id in f {
      var n := |s.scopes|;
      var s0 := s.(scopes := s.scopes + [Scope(id, [], {}, false)]);
      PerformAllKeepsOrder(s0, f, n, start.acts);
      var s1 := PerformAll(s0, f, n, start.acts);
      RunBackKeeps(s1.(scopes := s1.scopes[n := s1.scopes[n].(closed := true)]), n, s1.scopes[n].effects);
    }
  }
}
