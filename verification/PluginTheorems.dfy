/** What the plugin host keeps over start-up and every sequence of unloads, reloads and closes. */
module PluginTheorems {
  import opened Common
  import opened DependencyOrder
  import opened PluginModel

  // ---- Invariants ----

  predicate Open(s: State, n: int) { 0 <= n < |s.scopes| && !s.scopes[n].closed }

  /** Running plugins and open scopes correspond. */
  ghost predicate ScopesMatch(s: State, f: Factories) {
    && (forall id :: IsRunning(s, id) ==>
          id in f && s.runtimes[id].scope.Some?
          && Open(s, s.runtimes[id].scope.value) && s.scopes[s.runtimes[id].scope.value].owner == id)
    && (forall n: nat :: Open(s, n) ==>
          IsRunning(s, s.scopes[n].owner) && s.runtimes[s.scopes[n].owner].scope == Some(n))
  }

  ghost predicate HeldBy(s: State, n: int, owner: string, e: Effect) {
    Open(s, n) && s.scopes[n].owner == owner && e in s.scopes[n].effects
  }

  ghost predicate Held(s: State, owner: string, e: Effect) {
    exists n :: HeldBy(s, n, owner, e)
  }

  /** Every capability and hook is the core's, or belongs to an open scope that will take it back. */
  ghost predicate AllHeld(s: State) {
    && (forall c :: c in s.capabilities ==> s.capabilities[c] == CORE || Held(s, s.capabilities[c], Withdraw(c)))
    && (forall h :: h in s.hooks ==> h < s.nextHook && Held(s, s.hooks[h], Unhook(h)))
  }

  function RanBy(ran: seq<(nat, Effect)>, n: nat): seq<Effect> {
    if ran == [] then []
    else RanBy(ran[..|ran| - 1], n) + (if ran[|ran| - 1].0 == n then [ran[|ran| - 1].1] else [])
  }

  function Reversed(es: seq<Effect>): seq<Effect> {
    if es == [] then [] else [es[|es| - 1]] + Reversed(es[..|es| - 1])
  }

  /** A closed scope has run each effect once, last to first; an open one has run none. */
  ghost predicate EffectsRun(s: State) {
    && (forall n: nat {:trigger RanOnce(s.ran, n, s.scopes[n])} :: n < |s.scopes| ==> RanOnce(s.ran, n, s.scopes[n]))
    && (forall i :: 0 <= i < |s.ran| ==> s.ran[i].0 < |s.scopes|)
  }

  predicate RanOnce(ran: seq<(nat, Effect)>, n: nat, scope: Scope) {
    RanBy(ran, n) == if scope.closed then Reversed(scope.effects) else []
  }

  /** Disposers name hooks that have been added. */
  ghost predicate HooksNumbered(s: State) {
    forall n, e :: 0 <= n < |s.scopes| && e in s.scopes[n].effects && e.Unhook? ==> e.id < s.nextHook
  }

  ghost predicate DependenciesRun(s: State, f: Factories) {
    forall id :: IsRunning(s, id) ==> id in f && DependenciesMet(s, f, id)
  }

  function ItemsOf(s: State, id: string): set<(Kind, string)> {
    if IsRunning(s, id) && s.runtimes[id].scope.Some? && s.runtimes[id].scope.value < |s.scopes|
    then s.scopes[s.runtimes[id].scope.value].items else {}
  }

  /** No two running plugins have registered the same command, tool, memory or prompt. */
  ghost predicate Exclusive(s: State) {
    forall id, other :: IsRunning(s, id) && IsRunning(s, other) && id != other ==> ItemsOf(s, id) !! ItemsOf(s, other)
  }

  /** What holds whatever plugins do with the scopes they keep. */
  ghost predicate Lifecycle(s: State, f: Factories) {
    && ScopesMatch(s, f) && EffectsRun(s) && HooksNumbered(s) && DependenciesRun(s, f)
    && CORE !in f
    && (forall id :: id in s.runtimes ==> id in s.order)
  }

  ghost predicate Inv(s: State, f: Factories) { Lifecycle(s, f) && AllHeld(s) && Exclusive(s) }

  /** From `s` to `s'` the lifecycle stays sound, and so do ownership and exclusiveness where they held. */
  ghost predicate Keeps(s: State, s': State, f: Factories) {
    Lifecycle(s', f) && (AllHeld(s) ==> AllHeld(s')) && (Exclusive(s) ==> Exclusive(s'))
  }

  // ---- Contributions ----

  /** Only scope `n`, the capabilities and the hooks may differ, and the scope has only grown. */
  ghost predicate Contributed(s: State, s': State, n: nat) {
    && s'.runtimes == s.runtimes && s'.order == s.order && s'.ran == s.ran
    && |s'.scopes| == |s.scopes| && n < |s.scopes|
    && (forall m :: 0 <= m < |s.scopes| && m != n ==> s'.scopes[m] == s.scopes[m])
    && s'.scopes[n].owner == s.scopes[n].owner && s'.scopes[n].closed == s.scopes[n].closed
    && s.scopes[n].effects <= s'.scopes[n].effects
  }

  lemma HeldGrows(s: State, s': State, n: nat, owner: string, e: Effect)
    requires Contributed(s, s', n) && Held(s, owner, e)
    ensures Held(s', owner, e)
  {
    var m :| HeldBy(s, m, owner, e);
    assert HeldBy(s', m, owner, e);
  }

  lemma PerformContributes(s: State, f: Factories, n: nat, act: Act)
    requires n < |s.scopes| && s.scopes[n].owner in f
    ensures Contributed(s, Perform(s, f, n, act), n)
    ensures s.scopes[n].closed ==> Perform(s, f, n, act).scopes[n].effects == s.scopes[n].effects
    ensures HooksNumbered(s) ==> HooksNumbered(Perform(s, f, n, act))
  {
  }

  /** A contribution through a closed scope that the scope can no longer take back. */
  ghost predicate Stray(s: State, f: Factories, n: nat, act: Act)
    requires n < |s.scopes| && s.scopes[n].owner in f
  {
    var owner := s.scopes[n].owner;
    s.scopes[n].closed && match act
    case Provide(name) => name in f[owner].provided && name !in s.capabilities && !Held(s, owner, Withdraw(name))
    case On => f[owner].hooks
    case _ => false
  }

  lemma OpenKeepsHeld(s: State, f: Factories, n: nat, act: Act)
    requires AllHeld(s) && Open(s, n) && s.scopes[n].owner in f
    ensures AllHeld(Perform(s, f, n, act))
  {
    var s' := Perform(s, f, n, act);
    PerformContributes(s, f, n, act);
    forall c | c in s'.capabilities && s'.capabilities[c] != CORE ensures Held(s', s'.capabilities[c], Withdraw(c)) {
      if c in s.capabilities && s'.capabilities[c] == s.capabilities[c] { HeldGrows(s, s', n, s.capabilities[c], Withdraw(c)); }
      else { assert HeldBy(s', n, s'.capabilities[c], Withdraw(c)); }
    }
    forall h | h in s'.hooks ensures h < s'.nextHook && Held(s', s'.hooks[h], Unhook(h)) {
      if h in s.hooks && s'.hooks[h] == s.hooks[h] { HeldGrows(s, s', n, s.hooks[h], Unhook(h)); }
      else { assert HeldBy(s', n, s'.hooks[h], Unhook(h)); }
    }
  }

  /** Through a closed scope nothing new is held. */
  lemma ClosedHoldsNothingNew(s: State, f: Factories, n: nat, act: Act, owner: string, e: Effect)
    requires n < |s.scopes| && s.scopes[n].owner in f && s.scopes[n].closed
    ensures Held(Perform(s, f, n, act), owner, e) <==> Held(s, owner, e)
  {
    var s' := Perform(s, f, n, act);
    PerformContributes(s, f, n, act);
    forall m ensures HeldBy(s', m, owner, e) <==> HeldBy(s, m, owner, e) {}
  }

  lemma ClosedKeepsHeldExactly(s: State, f: Factories, n: nat, act: Act)
    requires AllHeld(s) && HooksNumbered(s) && n < |s.scopes|
    requires s.scopes[n].owner in f && s.scopes[n].owner != CORE && s.scopes[n].closed
    ensures AllHeld(Perform(s, f, n, act)) <==> !Stray(s, f, n, act)
  {
    var s', owner := Perform(s, f, n, act), s.scopes[n].owner;
    forall x, e ensures Held(s', x, e) <==> Held(s, x, e) { ClosedHoldsNothingNew(s, f, n, act, x, e); }
    if act.On? && f[owner].hooks {
      assert s'.hooks[s.nextHook] == owner;
      assert !Held(s, owner, Unhook(s.nextHook));
    }
    if act.Provide? && Stray(s, f, n, act) { assert s'.capabilities[act.name] == owner; }
  }

  /** A contribution keeps every capability and hook owned exactly when it is not stray. */
  lemma ContributeKeepsHeldExactly(s: State, f: Factories, n: nat, act: Act)
    requires AllHeld(s) && HooksNumbered(s) && n < |s.scopes| && s.scopes[n].owner in f && s.scopes[n].owner != CORE
    ensures AllHeld(Perform(s, f, n, act)) <==> !Stray(s, f, n, act)
  {
    if s.scopes[n].closed { ClosedKeepsHeldExactly(s, f, n, act); } else { OpenKeepsHeld(s, f, n, act); }
  }

  lemma {:induction false} PerformAllKeepsHeld(s: State, f: Factories, n: nat, acts: seq<Act>)
    requires Open(s, n) && s.scopes[n].owner in f
    ensures Contributed(s, PerformAll(s, f, n, acts), n)
    ensures AllHeld(s) ==> AllHeld(PerformAll(s, f, n, acts))
    ensures HooksNumbered(s) ==> HooksNumbered(PerformAll(s, f, n, acts))
    decreases |acts|
  {
    if acts != [] {
      var t := PerformAll(s, f, n, acts[..|acts| - 1]);
      PerformAllKeepsHeld(s, f, n, acts[..|acts| - 1]);
      PerformContributes(t, f, n, acts[|acts| - 1]);
      if AllHeld(s) { OpenKeepsHeld(t, f, n, acts[|acts| - 1]); }
    }
  }

  // ---- Closing a scope ----

  function Entries(n: nat, es: seq<Effect>): seq<(nat, Effect)> {
    seq(|es|, i requires 0 <= i < |es| => (n, es[i]))
  }

  /** Running the effects back takes away exactly the owner's capabilities and the hooks they name. */
  lemma {:induction false} RunBackTakesBack(s: State, n: nat, es: seq<Effect>)
    requires n < |s.scopes|
    ensures var r, owner := RunBack(s, n, es), s.scopes[n].owner;
      && (forall c :: c in r.capabilities <==>
            c in s.capabilities && !(s.capabilities[c] == owner && Withdraw(c) in es))
      && (forall c :: c in r.capabilities ==> r.capabilities[c] == s.capabilities[c])
    decreases |es|
  {
    if es != [] {
      var last, rest := es[|es| - 1], es[..|es| - 1];
      assert es == rest + [last];
      RunBackTakesBack(RunEffect(s, n, last), n, rest);
    }
  }

  lemma {:induction false} RunBackUnhooks(s: State, n: nat, es: seq<Effect>)
    requires n < |s.scopes|
    ensures var r := RunBack(s, n, es);
      && (forall h :: h in r.hooks <==> h in s.hooks && Unhook(h) !in es)
      && (forall h :: h in r.hooks ==> r.hooks[h] == s.hooks[h])
    decreases |es|
  {
    if es != [] {
      var last, rest := es[|es| - 1], es[..|es| - 1];
      assert es == rest + [last];
      RunBackUnhooks(RunEffect(s, n, last), n, rest);
    }
  }

  /** The effects run once each, last to first. */
  lemma {:induction false} RunBackReverses(s: State, n: nat, es: seq<Effect>)
    requires n < |s.scopes|
    ensures RunBack(s, n, es).ran == s.ran + Entries(n, Reversed(es))
    decreases |es|
  {
    if es != [] {
      var last, rest := es[|es| - 1], es[..|es| - 1];
      RunBackReverses(RunEffect(s, n, last), n, rest);
      assert Entries(n, Reversed(es)) == [(n, last)] + Entries(n, Reversed(rest));
    }
  }

  lemma {:induction false} RanByEntries(ran: seq<(nat, Effect)>, n: nat, es: seq<Effect>, m: nat)
    ensures RanBy(ran + Entries(n, es), m) == RanBy(ran, m) + (if m == n then es else [])
    decreases |es|
  {
    if es == [] {
      assert ran + Entries(n, es) == ran;
    } else {
      var all := ran + Entries(n, es);
      assert all[..|all| - 1] == ran + Entries(n, es[..|es| - 1]);
      RanByEntries(ran, n, es[..|es| - 1], m);
    }
  }

  lemma CloseScopeFrame(s: State, n: nat)
    requires Open(s, n)
    ensures var r := CloseScope(s, n);
      && r.runtimes == s.runtimes && r.order == s.order && r.nextHook == s.nextHook
      && r.scopes == s.scopes[n := s.scopes[n].(closed := true)]
  {
    RunBackKeeps(s.(scopes := s.scopes[n := s.scopes[n].(closed := true)]), n, s.scopes[n].effects);
  }

  lemma CloseScopeKeepsHeld(s: State, n: nat)
    requires Open(s, n) && AllHeld(s) && s.scopes[n].owner != CORE
    ensures AllHeld(CloseScope(s, n))
  {
    var shut := s.(scopes := s.scopes[n := s.scopes[n].(closed := true)]);
    var r, es := CloseScope(s, n), s.scopes[n].effects;
    CloseScopeFrame(s, n);
    RunBackTakesBack(shut, n, es);
    RunBackUnhooks(shut, n, es);
    forall c | c in r.capabilities && r.capabilities[c] != CORE ensures Held(r, r.capabilities[c], Withdraw(c)) {
      assert Held(s, s.capabilities[c], Withdraw(c));
      var m :| HeldBy(s, m, s.capabilities[c], Withdraw(c));
      assert HeldBy(r, m, r.capabilities[c], Withdraw(c));
    }
    forall h | h in r.hooks ensures h < r.nextHook && Held(r, r.hooks[h], Unhook(h)) {
      assert Held(s, s.hooks[h], Unhook(h));
      var m :| HeldBy(s, m, s.hooks[h], Unhook(h));
      assert HeldBy(r, m, r.hooks[h], Unhook(h));
    }
  }

  lemma CloseScopeRunsEffects(s: State, n: nat)
    requires Open(s, n) && EffectsRun(s)
    ensures EffectsRun(CloseScope(s, n))
  {
    var shut := s.(scopes := s.scopes[n := s.scopes[n].(closed := true)]);
    var r, es := CloseScope(s, n), s.scopes[n].effects;
    CloseScopeFrame(s, n);
    RunBackReverses(shut, n, es);
    forall m: nat | m < |r.scopes| ensures RanOnce(r.ran, m, r.scopes[m]) {
      assert RanOnce(s.ran, m, s.scopes[m]);
      RanByEntries(s.ran, n, Reversed(es), m);
    }
  }

  // ---- Loading ----

  lemma {:induction false} NoneRanBy(ran: seq<(nat, Effect)>, n: nat)
    requires forall i :: 0 <= i < |ran| ==> ran[i].0 < n
    ensures RanBy(ran, n) == []
  {
    if ran != [] { NoneRanBy(ran[..|ran| - 1], n); }
  }

  /** A new open scope for `id`, with its contributions made. */
  ghost function Begun(s: State, f: Factories, id: string, acts: seq<Act>): State
    requires id in f
  {
    PerformAll(s.(scopes := s.scopes + [Scope(id, [], {}, false)]), f, |s.scopes|, acts)
  }

  lemma BeginKeeps(s: State, f: Factories, id: string, acts: seq<Act>)
    requires Lifecycle(s, f) && id in f
    ensures var b := Begun(s, f, id, acts);
      && (AllHeld(s) ==> AllHeld(b)) && EffectsRun(b) && HooksNumbered(b) && b.runtimes == s.runtimes && b.order == s.order
      && |b.scopes| == |s.scopes| + 1 && b.scopes[|s.scopes|].owner == id && Open(b, |s.scopes|)
      && (forall m :: 0 <= m < |s.scopes| ==> b.scopes[m] == s.scopes[m])
  {
    var n := |s.scopes|;
    var s0 := s.(scopes := s.scopes + [Scope(id, [], {}, false)]);
    forall owner, e | Held(s, owner, e) ensures Held(s0, owner, e) {
      var m :| HeldBy(s, m, owner, e);
      assert HeldBy(s0, m, owner, e);
    }
    NoneRanBy(s.ran, n);
    PerformAllKeepsHeld(s0, f, n, acts);
  }

  /** What is held does not depend on the runtimes. */
  lemma SameScopesHeld(s: State, r: State)
    requires r.scopes == s.scopes && r.capabilities == s.capabilities && r.hooks == s.hooks && r.nextHook == s.nextHook
    ensures AllHeld(s) ==> AllHeld(r)
  {
    forall owner, e | Held(s, owner, e) ensures Held(r, owner, e) {
      var m :| HeldBy(s, m, owner, e);
      assert HeldBy(r, m, owner, e);
    }
  }

  /** Recording that a plugin does not run, where it did not. */
  lemma IdleKeepsInv(s: State, f: Factories, id: string, status: Status)
    requires Lifecycle(s, f) && id in f && id in s.order && !IsRunning(s, id) && status != Running
    ensures Keeps(s, s.(runtimes := s.runtimes[id := Runtime(status, None)]), f)
  {
    var r := s.(runtimes := s.runtimes[id := Runtime(status, None)]);
    SameScopesHeld(s, r);
    IdleKeepsLifecycle(s, f, id, status);
    assert forall x :: IsRunning(r, x) <==> IsRunning(s, x);
    assert forall x :: ItemsOf(r, x) == ItemsOf(s, x);
  }

  lemma IdleKeepsLifecycle(s: State, f: Factories, id: string, status: Status)
    requires Lifecycle(s, f) && id in f && id in s.order && !IsRunning(s, id) && status != Running
    ensures Lifecycle(s.(runtimes := s.runtimes[id := Runtime(status, None)]), f)
  {
    var r := s.(runtimes := s.runtimes[id := Runtime(status, None)]);
    assert forall x :: IsRunning(r, x) <==> IsRunning(s, x);
    forall x | IsRunning(r, x) ensures DependenciesMet(r, f, x) { assert IsRunning(s, x); }
    forall m: nat | Open(r, m) ensures IsRunning(r, r.scopes[m].owner) && r.runtimes[r.scopes[m].owner].scope == Some(m) {
      assert Open(s, m);
    }
  }

  lemma AbortKeepsInv(s: State, f: Factories, id: string, acts: seq<Act>)
    requires Lifecycle(s, f) && id in f && id in s.order && !IsRunning(s, id)
    ensures Keeps(s, CloseScope(Begun(s, f, id, acts), |s.scopes|), f)
    ensures CloseScope(Begun(s, f, id, acts), |s.scopes|).runtimes == s.runtimes
    ensures CloseScope(Begun(s, f, id, acts), |s.scopes|).order == s.order
  {
    var n, b := |s.scopes|, Begun(s, f, id, acts);
    BeginKeeps(s, f, id, acts);
    CloseScopeFrame(b, n);
    if AllHeld(s) { CloseScopeKeepsHeld(b, n); }
    CloseScopeRunsEffects(b, n);
    var r := CloseScope(b, n);
    assert forall x :: IsRunning(r, x) <==> IsRunning(s, x);
    forall m: nat | Open(r, m) ensures Open(s, m) && r.scopes[m] == s.scopes[m] {}
    assert forall x :: ItemsOf(r, x) == ItemsOf(s, x);
  }

  /** The started plugin joins without a conflict. */
  lemma CommitKeepsExclusive(s: State, b: State, id: string, n: nat)
    requires Exclusive(s) && n == |s.scopes| && |b.scopes| == n + 1 && b.runtimes == s.runtimes && !IsRunning(s, id)
    requires forall m :: 0 <= m < n ==> b.scopes[m] == s.scopes[m]
    requires forall x :: IsRunning(s, x) ==> s.runtimes[x].scope.Some? && s.runtimes[x].scope.value < n
    requires !Conflicts(b, id, n)
    ensures Exclusive(b.(runtimes := b.runtimes[id := Runtime(Running, Some(n))]))
  {
    var r := b.(runtimes := b.runtimes[id := Runtime(Running, Some(n))]);
    forall x | IsRunning(s, x) ensures ItemsOf(r, x) == ItemsOf(s, x) && ItemsOf(r, x) !! b.scopes[n].items {
      assert x in b.runtimes && IsRunning(b, x);
    }
  }

  lemma CommitKeepsInv(s: State, f: Factories, id: string, acts: seq<Act>)
    requires Lifecycle(s, f) && id in f && id in s.order && !IsRunning(s, id) && DependenciesMet(s, f, id)
    requires !Conflicts(Begun(s, f, id, acts), id, |s.scopes|)
    ensures var b := Begun(s, f, id, acts);
      Keeps(s, b.(runtimes := b.runtimes[id := Runtime(Running, Some(|s.scopes|))]), f)
  {
    var n, b := |s.scopes|, Begun(s, f, id, acts);
    BeginKeeps(s, f, id, acts);
    var r := b.(runtimes := b.runtimes[id := Runtime(Running, Some(n))]);
    if Exclusive(s) { CommitKeepsExclusive(s, b, id, n); }
    assert forall x :: IsRunning(r, x) <==> IsRunning(s, x) || x == id;
    forall owner, e | Held(b, owner, e) ensures Held(r, owner, e) {
      var m :| HeldBy(b, m, owner, e);
      assert HeldBy(r, m, owner, e);
    }
    forall m: nat | Open(r, m) ensures IsRunning(r, r.scopes[m].owner) && r.runtimes[r.scopes[m].owner].scope == Some(m) {
      if m != n { assert Open(s, m); }
    }
    forall x | IsRunning(r, x) ensures x in f && DependenciesMet(r, f, x) {
      assert x == id || IsRunning(s, x);
    }
  }

  lemma LoadKeepsInv(s: State, f: Factories, id: string, start: Startup)
    requires Lifecycle(s, f) && id in s.order && !IsRunning(s, id)
    ensures Keeps(s, Load(s, f, id, start).0, f) && Load(s, f, id, start).0.order == s.order
    ensures forall x :: x != id ==> (IsRunning(Load(s, f, id, start).0, x) <==> IsRunning(s, x))
  {
    if id !in f {
    } else if !DependenciesMet(s, f, id) || !f[id].hasRunner {
      IdleKeepsInv(s, f, id, Failed);
    } else {
      BeginKeeps(s, f, id, start.acts);
      AbortKeepsInv(s, f, id, start.acts);
      if start.fails || start.badTool || Conflicts(Begun(s, f, id, start.acts), id, |s.scopes|) {
        IdleKeepsInv(CloseScope(Begun(s, f, id, start.acts), |s.scopes|), f, id, Failed);
      } else {
        CommitKeepsInv(s, f, id, start.acts);
      }
    }
  }

  // ---- Unloading ----

  lemma UnloadKeepsInv(s: State, f: Factories, id: string, fails: bool)
    requires Lifecycle(s, f)
    ensures Keeps(s, Unload(s, f, id, fails).0, f)
    ensures Unload(s, f, id, fails).0.order == s.order
    ensures Unload(s, f, id, fails).1.NotRunning? || Unload(s, f, id, fails).1.Required? || !IsRunning(Unload(s, f, id, fails).0, id)
    ensures forall x :: x != id ==> (IsRunning(Unload(s, f, id, fails).0, x) <==> IsRunning(s, x))
  {
    if IsRunning(s, id) && !HasRunningDependent(s, f, id) {
      var n := s.runtimes[id].scope.value;
      CloseScopeFrame(s, n);
      if AllHeld(s) { CloseScopeKeepsHeld(s, n); }
      CloseScopeRunsEffects(s, n);
      var c, r := CloseScope(s, n), Unload(s, f, id, fails).0;
      assert r == c.(runtimes := c.runtimes[id := r.runtimes[id]]);
      RetireKeepsInv(s, f, id, c, r);
    }
  }

  /** With its scope closed, a plugin that no running one needs can leave. */
  lemma RetireKeepsInv(s: State, f: Factories, id: string, c: State, r: State)
    requires Lifecycle(s, f) && IsRunning(s, id) && !HasRunningDependent(s, f, id)
    requires c.runtimes == s.runtimes && c.order == s.order
    requires c.scopes == s.scopes[s.runtimes[id].scope.value := s.scopes[s.runtimes[id].scope.value].(closed := true)]
    requires (AllHeld(s) ==> AllHeld(c)) && EffectsRun(c) && c.nextHook == s.nextHook
    requires id in r.runtimes && r == c.(runtimes := c.runtimes[id := r.runtimes[id]]) && !IsRunning(r, id)
    ensures Keeps(s, r, f)
  {
    assert forall x :: IsRunning(r, x) <==> IsRunning(s, x) && x != id;
    SameScopesHeld(c, r);
    RetireKeepsScopes(s, f, id, r);
    RetireKeepsDependencies(s, f, id, r);
    assert EffectsRun(r) && HooksNumbered(r);
    if Exclusive(s) { RetireKeepsExclusive(s, f, id, r); }
  }

  lemma RetireKeepsScopes(s: State, f: Factories, id: string, r: State)
    requires ScopesMatch(s, f) && IsRunning(s, id) && id in r.runtimes && !IsRunning(r, id)
    requires r.runtimes == s.runtimes[id := r.runtimes[id]]
    requires r.scopes == s.scopes[s.runtimes[id].scope.value := s.scopes[s.runtimes[id].scope.value].(closed := true)]
    ensures ScopesMatch(r, f)
  {
    assert forall x :: IsRunning(r, x) <==> IsRunning(s, x) && x != id;
    forall m: nat | Open(r, m) ensures Open(s, m) && r.scopes[m] == s.scopes[m] && r.scopes[m].owner != id {}
    forall x | IsRunning(r, x) ensures Open(r, r.runtimes[x].scope.value) && r.scopes[r.runtimes[x].scope.value].owner == x {
      assert Open(s, s.runtimes[x].scope.value);
    }
  }

  lemma RetireKeepsExclusive(s: State, f: Factories, id: string, r: State)
    requires ScopesMatch(s, f) && Exclusive(s) && IsRunning(s, id) && id in r.runtimes && !IsRunning(r, id)
    requires r.runtimes == s.runtimes[id := r.runtimes[id]]
    requires r.scopes == s.scopes[s.runtimes[id].scope.value := s.scopes[s.runtimes[id].scope.value].(closed := true)]
    ensures Exclusive(r)
  {
    forall x | IsRunning(r, x) ensures ItemsOf(r, x) == ItemsOf(s, x) {
      assert IsRunning(s, x) && Open(s, s.runtimes[x].scope.value);
    }
  }

  lemma RetireKeepsDependencies(s: State, f: Factories, id: string, r: State)
    requires DependenciesRun(s, f) && !HasRunningDependent(s, f, id)
    requires forall x :: IsRunning(r, x) <==> IsRunning(s, x) && x != id
    ensures DependenciesRun(r, f)
  {
    forall x | IsRunning(r, x) ensures DependenciesMet(r, f, x) {
      forall d | d in f[x].dependencies ensures IsRunning(r, d.id) && d.versionOk {
        var i :| 0 <= i < |f[x].dependencies| && f[x].dependencies[i] == d;
        assert DependencyIDs(f[x].dependencies)[i] == d.id;
      }
    }
  }

  // ---- Whole runs ----

  lemma KeepsOn(s: State, t: State, r: State, f: Factories)
    requires Keeps(s, t, f) && Keeps(t, r, f)
    ensures Keeps(s, r, f)
  {
  }

  /** Nothing up to a position in the order depends on what stands there. */
  ghost predicate DependentsLater(f: Factories, order: seq<string>) {
    forall i, j :: 0 <= i <= j < |order| && order[i] in f ==> order[j] !in DependencyIDs(f[order[i]].dependencies)
  }

  lemma OrderPutsDependentsLater(f: Factories, order: seq<string>)
    requires TopologicalOrder(DependencyGraph(f), order)
    ensures DependentsLater(f, order)
  {
    forall i, j | 0 <= i <= j < |order| && order[i] in f ensures order[j] !in DependencyIDs(f[order[i]].dependencies) {
      assert DependencyGraph(f)[order[i]] == DependencyIDs(f[order[i]].dependencies);
    }
  }

  /** When only plugins up to position `k` run, the last of them has no running dependent. */
  lemma NoDependentLeft(s: State, f: Factories, k: nat)
    requires DependentsLater(f, s.order) && 0 < k <= |s.order| && RunsUpTo(s, k)
    ensures !HasRunningDependent(s, f, s.order[k - 1])
  {
    forall other | IsRunning(s, other) && other in f ensures s.order[k - 1] !in DependencyIDs(f[other].dependencies) {
      var i :| 0 <= i < k && s.order[..k][i] == other;
      assert s.order[i] == other;
    }
  }

  /** Only plugins up to position `k` of the order are running. */
  ghost predicate RunsUpTo(s: State, k: nat)
    requires k <= |s.order|
  {
    forall x :: IsRunning(s, x) ==> x in s.order[..k]
  }

  /** One stop of Close: it is not refused. */
  lemma StopKeepsInv(s: State, f: Factories, k: nat, failing: set<string>)
    requires Lifecycle(s, f) && DependentsLater(f, s.order) && 0 < k <= |s.order| && IsRunning(s, s.order[k - 1]) && RunsUpTo(s, k)
    ensures var id := s.order[k - 1];
      var (s1, o) := Unload(s, f, id, id in failing);
      && Keeps(s, s1, f) && s1.order == s.order && (o == Stopped.Stopped || o == StopFailed) && RunsUpTo(s1, k - 1)
  {
    var id := s.order[k - 1];
    NoDependentLeft(s, f, k);
    UnloadKeepsInv(s, f, id, id in failing);
    Shrinks(s, Unload(s, f, id, id in failing).0, k);
  }

  lemma Shrinks(s: State, s1: State, k: nat)
    requires 0 < k <= |s.order| && RunsUpTo(s, k) && s1.order == s.order && !IsRunning(s1, s.order[k - 1])
    requires forall x :: x != s.order[k - 1] ==> (IsRunning(s1, x) <==> IsRunning(s, x))
    ensures RunsUpTo(s1, k - 1)
  {
    assert s.order[..k] == s.order[..k - 1] + [s.order[k - 1]];
  }

  lemma CloseGoesOn(s: State, f: Factories, k: nat, failing: set<string>)
    requires 0 < k <= |s.order| && IsRunning(s, s.order[k - 1])
    ensures var (s1, o) := Unload(s, f, s.order[k - 1], s.order[k - 1] in failing);
      && s1.order == s.order
      && CloseFrom(s, f, k, failing) == (CloseFrom(s1, f, k - 1, failing).0, [o] + CloseFrom(s1, f, k - 1, failing).1)
  {
    UnloadKeepsOrder(s, f, s.order[k - 1], s.order[k - 1] in failing);
  }

  /** What closing the first `k` plugins of the order leaves. */
  ghost predicate ClosedWell(s: State, f: Factories, k: nat, failing: set<string>)
    requires k <= |s.order|
  {
    exists r :: r == CloseFrom(s, f, k, failing).0 && Keeps(s, r, f) && r.order == s.order && RunsUpTo(r, 0)
  }

  lemma {:induction false} CloseKeepsInv(s: State, f: Factories, k: nat, failing: set<string>)
    requires Lifecycle(s, f) && DependentsLater(f, s.order) && k <= |s.order| && RunsUpTo(s, k)
    ensures ClosedWell(s, f, k, failing)
    decreases k
  {
    if k > 0 {
      var id := s.order[k - 1];
      if !IsRunning(s, id) {
        assert s.order[..k] == s.order[..k - 1] + [id];
        CloseKeepsInv(s, f, k - 1, failing);
      } else {
        StopKeepsInv(s, f, k, failing);
        var s1 := Unload(s, f, id, id in failing).0;
        CloseKeepsInv(s1, f, k - 1, failing);
        CloseGoesOn(s, f, k, failing);
        CloseOnWell(s, s1, f, k, failing);
      }
    }
  }

  lemma CloseOnWell(s: State, s1: State, f: Factories, k: nat, failing: set<string>)
    requires 0 < k <= |s.order| && s1.order == s.order && Keeps(s, s1, f) && ClosedWell(s1, f, k - 1, failing)
    requires CloseFrom(s, f, k, failing).0 == CloseFrom(s1, f, k - 1, failing).0
    ensures ClosedWell(s, f, k, failing)
  {
    KeepsOn(s, s1, CloseFrom(s1, f, k - 1, failing).0, f);
  }

  predicate NotRefused(outcomes: seq<Stopped>) { forall i :: 0 <= i < |outcomes| ==> outcomes[i].Stopped? || outcomes[i].StopFailed? }

  lemma NotRefusedCons(o: Stopped, rest: seq<Stopped>)
    requires (o.Stopped? || o.StopFailed?) && NotRefused(rest)
    ensures NotRefused([o] + rest)
  {
  }

  lemma StopGoesOn(s: State, f: Factories, k: nat, failing: set<string>)
    requires Lifecycle(s, f) && DependentsLater(f, s.order) && 0 < k <= |s.order| && IsRunning(s, s.order[k - 1]) && RunsUpTo(s, k)
    ensures var (s1, o) := Unload(s, f, s.order[k - 1], s.order[k - 1] in failing);
      && Lifecycle(s1, f) && s1.order == s.order && RunsUpTo(s1, k - 1) && (o.Stopped? || o.StopFailed?)
  {
    StopKeepsInv(s, f, k, failing);
  }

  /** Close is never refused for a running dependent. */
  lemma {:induction false} CloseIsNotRefused(s: State, f: Factories, k: nat, failing: set<string>)
    requires Lifecycle(s, f) && DependentsLater(f, s.order) && k <= |s.order| && RunsUpTo(s, k)
    ensures NotRefused(CloseFrom(s, f, k, failing).1)
    decreases k
  {
    if k > 0 {
      var id := s.order[k - 1];
      if !IsRunning(s, id) {
        assert s.order[..k] == s.order[..k - 1] + [id];
        CloseIsNotRefused(s, f, k - 1, failing);
      } else {
        var (s1, o) := Unload(s, f, id, id in failing);
        StopGoesOn(s, f, k, failing);
        CloseIsNotRefused(s1, f, k - 1, failing);
        NotRefusedCons(o, CloseFrom(s1, f, k - 1, failing).1);
        CloseGoesOn(s, f, k, failing);
      }
    }
  }

  lemma StartOneKeepsInv(s: State, f: Factories, id: string, enabled: map<string, bool>, start: Startup)
    requires Lifecycle(s, f) && id in f && id in s.order && !IsRunning(s, id)
    ensures Keeps(s, StartOne(s, f, id, enabled, start), f) && StartOne(s, f, id, enabled, start).order == s.order
    ensures forall x :: x != id ==> (IsRunning(StartOne(s, f, id, enabled, start), x) <==> IsRunning(s, x))
  {
    LoadKeepsInv(s, f, id, start);
    IdleKeepsInv(s, f, id, Disabled);
  }

  lemma {:induction false} StartKeepsInv(s: State, f: Factories, ids: seq<string>, enabled: map<string, bool>, starts: map<string, Startup>)
    requires Lifecycle(s, f) && (forall i :: 0 <= i < |ids| ==> ids[i] in f && ids[i] in starts && ids[i] in s.order)
    requires forall i, j :: 0 <= i < j < |ids| ==> ids[i] != ids[j]
    requires forall i :: 0 <= i < |ids| ==> !IsRunning(s, ids[i])
    ensures Keeps(s, StartFrom(s, f, ids, enabled, starts), f)
    ensures StartFrom(s, f, ids, enabled, starts).order == s.order
    ensures forall x :: x !in ids ==> (IsRunning(StartFrom(s, f, ids, enabled, starts), x) <==> IsRunning(s, x))
    decreases |ids|
  {
    if ids != [] {
      var rest, id := ids[..|ids| - 1], ids[|ids| - 1];
      assert ids == rest + [id] && id !in rest;
      StartKeepsInv(s, f, rest, enabled, starts);
      assert !IsRunning(s, id);
      StartOneKeepsInv(StartFrom(s, f, rest, enabled, starts), f, id, enabled, starts[id]);
    }
  }

  /** The host after start-up in the order that the dependency sort gave. */
  ghost function Started(f: Factories, core: set<string>, order: seq<string>, enabled: map<string, bool>, starts: map<string, Startup>): State
    requires forall i :: 0 <= i < |order| ==> order[i] in f && order[i] in starts
  {
    StartFrom(Initial(core).(order := order), f, order, enabled, starts)
  }

  // ---- Late contributions ----

  /** A registration through the scope of a running plugin that another running plugin already has. */
  ghost predicate Clashes(s: State, n: nat, act: Act)
    requires n < |s.scopes|
  {
    act.Register? && Open(s, n) && exists other :: other != s.scopes[n].owner && (act.kind, act.id) in ItemsOf(s, other)
  }

  lemma ItemsAfter(s: State, f: Factories, n: nat, act: Act, id: string)
    requires ScopesMatch(s, f) && n < |s.scopes| && s.scopes[n].owner in f
    ensures ItemsOf(Perform(s, f, n, act), id) ==
      ItemsOf(s, id) + if act.Register? && Open(s, n) && id == s.scopes[n].owner then {(act.kind, act.id)} else {}
  {
    if IsRunning(s, id) { assert Open(s, s.runtimes[id].scope.value); }
    if Open(s, n) { assert IsRunning(s, s.scopes[n].owner); }
  }

  /** No conflict check sees a late registration, so it keeps registrations exclusive exactly when it clashes with none. */
  lemma ContributeKeepsExclusiveExactly(s: State, f: Factories, n: nat, act: Act)
    requires ScopesMatch(s, f) && Exclusive(s) && n < |s.scopes| && s.scopes[n].owner in f
    ensures Exclusive(Perform(s, f, n, act)) <==> !Clashes(s, n, act)
  {
    var s', owner := Perform(s, f, n, act), s.scopes[n].owner;
    PerformContributes(s, f, n, act);
    assert forall x :: IsRunning(s', x) <==> IsRunning(s, x);
    forall x ensures ItemsOf(s', x) == ItemsOf(s, x) + if act.Register? && Open(s, n) && x == owner then {(act.kind, act.id)} else {} {
      ItemsAfter(s, f, n, act, x);
    }
    if Clashes(s, n, act) {
      var other :| other != owner && (act.kind, act.id) in ItemsOf(s, other);
      assert IsRunning(s, owner) && IsRunning(s, other);
      assert (act.kind, act.id) in ItemsOf(s', owner) && (act.kind, act.id) in ItemsOf(s', other);
    }
  }

  /** Whatever is contributed through whatever scope, the lifecycle stays sound. */
  lemma ContributeKeepsLifecycle(s: State, f: Factories, n: nat, act: Act)
    requires Lifecycle(s, f) && n < |s.scopes| && s.scopes[n].owner in f
    ensures Lifecycle(Perform(s, f, n, act), f)
  {
    var s' := Perform(s, f, n, act);
    PerformContributes(s, f, n, act);
    assert forall x :: IsRunning(s', x) <==> IsRunning(s, x);
    forall m: nat ensures Open(s', m) <==> Open(s, m) {}
    assert ScopesMatch(s', f);
    forall m: nat | m < |s'.scopes| ensures RanOnce(s'.ran, m, s'.scopes[m]) {
      assert RanOnce(s.ran, m, s.scopes[m]);
      assert s.scopes[m].closed ==> s'.scopes[m].effects == s.scopes[m].effects;
    }
    forall x | IsRunning(s', x) ensures DependenciesMet(s', f, x) { assert IsRunning(s, x); }
  }

  /** The event contributes nothing stray and nothing that clashes. */
  ghost predicate Proper(s: State, f: Factories, e: Event) {
    e.Contribute? && e.n < |s.scopes| && s.scopes[e.n].owner in f ==> !Stray(s, f, e.n, e.act) && !Clashes(s, e.n, e.act)
  }

  ghost predicate AllProper(s: State, f: Factories, events: seq<Event>)
    decreases |events|
  {
    events == [] || (AllProper(s, f, events[..|events| - 1]) && Proper(Run(s, f, events[..|events| - 1]), f, events[|events| - 1]))
  }

  // ---- Every run ----

  lemma StepKeepsLifecycle(s: State, f: Factories, e: Event)
    requires Lifecycle(s, f) && TopologicalOrder(DependencyGraph(f), s.order)
    ensures Lifecycle(Step(s, f, e), f) && Step(s, f, e).order == s.order
    ensures !e.Contribute? ==> Keeps(s, Step(s, f, e), f)
  {
    match e
    case Contribute(n, act) =>
      if n < |s.scopes| && s.scopes[n].owner in f {
        ContributeKeepsLifecycle(s, f, n, act);
        PerformContributes(s, f, n, act);
      }
    case UnloadPlugin(id, fails) => UnloadKeepsInv(s, f, id, fails);
    case ReloadPlugin(id, fails, start) =>
      UnloadKeepsInv(s, f, id, fails);
      if id in s.runtimes && id in f && f[id].reloadable && Unload(s, f, id, fails).1 == Stopped.Stopped {
        LoadKeepsInv(Unload(s, f, id, fails).0, f, id, start);
      }
    case Close(failing) =>
      assert s.order[..|s.order|] == s.order;
      OrderPutsDependentsLater(f, s.order);
      CloseKeepsInv(s, f, |s.order|, failing);
  }

  lemma StepKeepsInv(s: State, f: Factories, e: Event)
    requires Inv(s, f) && TopologicalOrder(DependencyGraph(f), s.order)
    ensures Inv(Step(s, f, e), f) <==> Proper(s, f, e)
  {
    StepKeepsLifecycle(s, f, e);
    if e.Contribute? && e.n < |s.scopes| && s.scopes[e.n].owner in f {
      ContributeKeepsHeldExactly(s, f, e.n, e.act);
      ContributeKeepsExclusiveExactly(s, f, e.n, e.act);
    }
  }

  /**
   * Start-up and then any unloads, reloads, closes and late contributions, with any failures: the lifecycle is sound, and
   * as long as no contribution was stray or clashed, every capability and hook is owned and registrations are exclusive.
   */
  lemma {:induction false} LifecycleIsSafe(f: Factories, core: set<string>, order: seq<string>, enabled: map<string, bool>,
                                           starts: map<string, Startup>, events: seq<Event>)
    requires CORE !in f && TopologicalOrder(DependencyGraph(f), order) && forall id :: id in f ==> id in starts
    ensures forall i :: 0 <= i < |order| ==> order[i] in DependencyGraph(f)
    ensures var s0 := Started(f, core, order, enabled, starts);
      && Lifecycle(Run(s0, f, events), f) && Run(s0, f, events).order == order
      && (AllProper(s0, f, events) ==> Inv(Run(s0, f, events), f))
    decreases |events|
  {
    assert forall i :: 0 <= i < |order| ==> order[i] in DependencyGraph(f);
    if events == [] {
      StartKeepsInv(Initial(core).(order := order), f, order, enabled, starts);
    } else {
      var init, e := events[..|events| - 1], events[|events| - 1];
      LifecycleIsSafe(f, core, order, enabled, starts, init);
      var s0 := Started(f, core, order, enabled, starts);
      StepKeepsLifecycle(Run(s0, f, init), f, e);
      if AllProper(s0, f, events) { StepKeepsInv(Run(s0, f, init), f, e); }
    }
  }

  /**
   * Closing the host after any such run: no stop is refused, nothing runs on, and every scope's effects ran once, in
   * reverse. If no contribution was stray or clashed, only the core's capabilities are left, and no hook.
   */
  lemma CloseStopsEverything(f: Factories, core: set<string>, order: seq<string>, enabled: map<string, bool>,
                             starts: map<string, Startup>, events: seq<Event>, failing: set<string>)
    requires CORE !in f && TopologicalOrder(DependencyGraph(f), order) && forall id :: id in f ==> id in starts
    ensures forall i :: 0 <= i < |order| ==> order[i] in DependencyGraph(f)
    ensures var s0 := Started(f, core, order, enabled, starts);
      var s := Run(s0, f, events);
      var (end, outcomes) := CloseFrom(s, f, |s.order|, failing);
      && NotRefused(outcomes) && (forall x :: !IsRunning(end, x))
      && (forall n: nat :: n < |end.scopes| ==> RanBy(end.ran, n) == Reversed(end.scopes[n].effects))
      && (AllProper(s0, f, events) ==> (forall c :: c in end.capabilities ==> end.capabilities[c] == CORE) && end.hooks == map[])
  {
    LifecycleIsSafe(f, core, order, enabled, starts, events);
    CloseEmpties(Run(Started(f, core, order, enabled, starts), f, events), f, failing);
  }

  lemma CloseEmpties(s: State, f: Factories, failing: set<string>)
    requires Lifecycle(s, f) && TopologicalOrder(DependencyGraph(f), s.order)
    ensures var end := CloseFrom(s, f, |s.order|, failing).0;
      && NotRefused(CloseFrom(s, f, |s.order|, failing).1) && (forall x :: !IsRunning(end, x))
      && (forall n: nat :: n < |end.scopes| ==> RanBy(end.ran, n) == Reversed(end.scopes[n].effects))
      && (Inv(s, f) ==> (forall c :: c in end.capabilities ==> end.capabilities[c] == CORE) && end.hooks == map[])
  {
    assert s.order[..|s.order|] == s.order;
    OrderPutsDependentsLater(f, s.order);
    CloseKeepsInv(s, f, |s.order|, failing);
    CloseIsNotRefused(s, f, |s.order|, failing);
    ClosedHostIsEmpty(CloseFrom(s, f, |s.order|, failing).0, f);
  }

  lemma ClosedHostIsEmpty(end: State, f: Factories)
    requires Lifecycle(end, f) && RunsUpTo(end, 0)
    ensures forall n: nat :: n < |end.scopes| ==> RanBy(end.ran, n) == Reversed(end.scopes[n].effects)
    ensures AllHeld(end) ==> (forall c :: c in end.capabilities ==> end.capabilities[c] == CORE) && end.hooks == map[]
  {
    assert forall n :: !Open(end, n);
    assert forall owner, e :: !Held(end, owner, e);
    forall n: nat | n < |end.scopes| ensures RanBy(end.ran, n) == Reversed(end.scopes[n].effects) {
      assert RanOnce(end.ran, n, end.scopes[n]);
    }
  }

  /** A plugin that does not run owns no capability and no hook. */
  lemma StoppedOwnsNothing(s: State, f: Factories, id: string)
    requires Inv(s, f) && !IsRunning(s, id) && id != CORE
    ensures forall c :: c in s.capabilities ==> s.capabilities[c] != id
    ensures forall h :: h in s.hooks ==> s.hooks[h] != id
  {
  }

  // ---- Stray hooks ----

  /** A hook that no scope, open or closed, will take back. */
  ghost predicate Loose(s: State, h: nat) {
    h in s.hooks && h < s.nextHook && forall n :: 0 <= n < |s.scopes| ==> Unhook(h) !in s.scopes[n].effects
  }

  lemma StrayHookIsLoose(s: State, f: Factories, n: nat)
    requires HooksNumbered(s) && n < |s.scopes| && s.scopes[n].owner in f && Stray(s, f, n, On)
    ensures Loose(Perform(s, f, n, On), s.nextHook)
  {
    PerformContributes(s, f, n, On);
    forall m | 0 <= m < |s.scopes| ensures Unhook(s.nextHook) !in Perform(s, f, n, On).scopes[m].effects {
      assert forall e :: e in s.scopes[m].effects && e.Unhook? ==> e.id < s.nextHook;
    }
  }

  lemma PerformKeepsLoose(s: State, f: Factories, n: nat, act: Act, h: nat)
    requires Loose(s, h) && n < |s.scopes| && s.scopes[n].owner in f
    ensures Loose(Perform(s, f, n, act), h)
  {
  }

  lemma {:induction false} PerformAllKeepsLoose(s: State, f: Factories, n: nat, acts: seq<Act>, h: nat)
    requires Loose(s, h) && n < |s.scopes| && s.scopes[n].owner in f
    ensures Loose(PerformAll(s, f, n, acts), h)
    decreases |acts|
  {
    if acts != [] {
      PerformAllKeepsLoose(s, f, n, acts[..|acts| - 1], h);
      PerformKeepsLoose(PerformAll(s, f, n, acts[..|acts| - 1]), f, n, acts[|acts| - 1], h);
    }
  }

  lemma CloseKeepsLoose(s: State, n: nat, h: nat)
    requires Loose(s, h) && n < |s.scopes|
    ensures Loose(CloseScope(s, n), h)
  {
    if Open(s, n) {
      CloseScopeFrame(s, n);
      RunBackUnhooks(s.(scopes := s.scopes[n := s.scopes[n].(closed := true)]), n, s.scopes[n].effects);
    }
  }

  lemma LoadKeepsLoose(s: State, f: Factories, id: string, start: Startup, h: nat)
    requires Loose(s, h)
    ensures Loose(Load(s, f, id, start).0, h)
  {
    if id in f {
      var n, s0 := |s.scopes|, s.(scopes := s.scopes + [Scope(id, [], {}, false)]);
      assert Loose(s0, h);
      PerformAllKeepsLoose(s0, f, n, start.acts, h);
      CloseKeepsLoose(PerformAll(s0, f, n, start.acts), n, h);
    }
  }

  lemma UnloadKeepsLoose(s: State, f: Factories, id: string, fails: bool, h: nat)
    requires Loose(s, h)
    ensures Loose(Unload(s, f, id, fails).0, h)
  {
    if IsRunning(s, id) && s.runtimes[id].scope.Some? && s.runtimes[id].scope.value < |s.scopes| {
      CloseKeepsLoose(s, s.runtimes[id].scope.value, h);
    }
  }

  lemma {:induction false} CloseFromKeepsLoose(s: State, f: Factories, k: nat, failing: set<string>, h: nat)
    requires Loose(s, h) && k <= |s.order|
    ensures Loose(CloseFrom(s, f, k, failing).0, h)
    decreases k
  {
    if k > 0 {
      var id := s.order[k - 1];
      if IsRunning(s, id) {
        UnloadKeepsLoose(s, f, id, id in failing, h);
        UnloadKeepsOrder(s, f, id, id in failing);
        CloseFromKeepsLoose(Unload(s, f, id, id in failing).0, f, k - 1, failing, h);
      } else {
        CloseFromKeepsLoose(s, f, k - 1, failing, h);
      }
    }
  }

  lemma {:induction false} RunKeepsLoose(s: State, f: Factories, h: nat, events: seq<Event>)
    requires Loose(s, h)
    ensures Loose(Run(s, f, events), h)
    decreases |events|
  {
    if events != [] {
      var e, t := events[|events| - 1], Run(s, f, events[..|events| - 1]);
      RunKeepsLoose(s, f, h, events[..|events| - 1]);
      match e
      case Contribute(n, act) => if n < |t.scopes| && t.scopes[n].owner in f { PerformKeepsLoose(t, f, n, act, h); }
      case UnloadPlugin(id, fails) => UnloadKeepsLoose(t, f, id, fails, h);
      case ReloadPlugin(id, fails, start) =>
        UnloadKeepsLoose(t, f, id, fails, h);
        LoadKeepsLoose(Unload(t, f, id, fails).0, f, id, start, h);
      case Close(failing) => CloseFromKeepsLoose(t, f, |t.order|, failing, h);
    }
  }

  /** A hook added through a closed scope is never taken back: not by any unload, reload or close, nor any run of them. */
  lemma StrayHooksStay(s: State, f: Factories, n: nat, events: seq<Event>)
    requires Lifecycle(s, f) && n < |s.scopes| && s.scopes[n].owner in f && Stray(s, f, n, On)
    ensures s.nextHook in Run(Perform(s, f, n, On), f, events).hooks
  {
    StrayHookIsLoose(s, f, n);
    RunKeepsLoose(Perform(s, f, n, On), f, s.nextHook, events);
  }
}
