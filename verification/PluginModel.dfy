/** The plugin host as a state machine: loading, unloading, reloading and closing plugins and their scopes. */
module PluginModel {
  import opened Common
  import opened DependencyOrder

  const CORE := "core"

  datatype Dependency = Dependency(id: string, versionOk: bool)

  /** The fixed manifest of a plugin; `hasRunner` says that its isolation has a runner. */
  datatype Manifest = Manifest(dependencies: seq<Dependency>, provided: set<string>, hooks: bool,
                               reloadable: bool, defaultEnabled: bool, hasRunner: bool)

  datatype Status = Disabled | Running | Failed | Unloaded

  datatype Runtime = Runtime(status: Status, scope: Option<nat>)

  datatype Kind = Commands | Tools | Memory | Prompts

  /** What a disposer does: withdraw a capability, remove a hook handler, or something of the plugin's own. */
  datatype Effect = Withdraw(name: string) | Unhook(id: nat) | Custom(tag: nat)

  /** A plugin's contributions, in order; those the host refuses have no effect. */
  datatype Act = Provide(name: string) | On | Dispose(tag: nat) | Register(kind: Kind, id: string)

  datatype Scope = Scope(owner: string, effects: seq<Effect>, items: set<(Kind, string)>, closed: bool)

  /** One attempt to start a plugin: its contributions, whether starting fails, whether a tool is malformed. */
  datatype Startup = Startup(acts: seq<Act>, fails: bool, badTool: bool)

  datatype State = State(runtimes: map<string, Runtime>, order: seq<string>, capabilities: map<string, string>,
                         hooks: map<nat, string>, nextHook: nat, scopes: seq<Scope>, ran: seq<(nat, Effect)>)

  type Factories = map<string, Manifest>

  function DependencyIDs(ds: seq<Dependency>): seq<string> {
    seq(|ds|, i requires 0 <= i < |ds| => ds[i].id)
  }

  function DependencyGraph(f: Factories): Graph {
    map id | id in f :: DependencyIDs(f[id].dependencies)
  }

  function Initial(core: set<string>): State {
    State(map[], [], map c | c in core :: CORE, map[], 0, [], [])
  }

  predicate IsRunning(s: State, id: string) {
    id in s.runtimes && s.runtimes[id].status == Running
  }

  // ---- Contributions ----

  function AddEffect(s: State, n: nat, e: Effect): State
    requires n < |s.scopes|
  {
    if s.scopes[n].closed then s else s.(scopes := s.scopes[n := s.scopes[n].(effects := s.scopes[n].effects + [e])])
  }

  function ProvideCapability(s: State, f: Factories, n: nat, name: string): State
    requires n < |s.scopes| && s.scopes[n].owner in f
  {
    var owner := s.scopes[n].owner;
    if name !in f[owner].provided || (name in s.capabilities && s.capabilities[name] != owner) then s
    else AddEffect(s.(capabilities := s.capabilities[name := owner]), n, Withdraw(name))
  }

  function AddHook(s: State, f: Factories, n: nat): State
    requires n < |s.scopes| && s.scopes[n].owner in f
  {
    if !f[s.scopes[n].owner].hooks then s
    else AddEffect(s.(hooks := s.hooks[s.nextHook := s.scopes[n].owner], nextHook := s.nextHook + 1), n, Unhook(s.nextHook))
  }

  function Perform(s: State, f: Factories, n: nat, act: Act): State
    requires n < |s.scopes| && s.scopes[n].owner in f
  {
    match act
    case Provide(name) => ProvideCapability(s, f, n, name)
    case On => AddHook(s, f, n)
    case Dispose(tag) => AddEffect(s, n, Custom(tag))
    case Register(kind, id) => s.(scopes := s.scopes[n := s.scopes[n].(items := s.scopes[n].items + {(kind, id)})])
  }

  function PerformAll(s: State, f: Factories, n: nat, acts: seq<Act>): (r: State)
    requires n < |s.scopes| && s.scopes[n].owner in f
    ensures |r.scopes| == |s.scopes| && r.scopes[n].owner == s.scopes[n].owner
    decreases |acts|
  {
    if acts == [] then s else
      var t := PerformAll(s, f, n, acts[..|acts| - 1]);
      Perform(t, f, n, acts[|acts| - 1])
  }

  // ---- Scopes ----

  function RunEffect(s: State, n: nat, e: Effect): State
    requires n < |s.scopes|
  {
    var owner := s.scopes[n].owner;
    var s' := match e
      case Withdraw(name) => if name in s.capabilities && s.capabilities[name] == owner
                             then s.(capabilities := s.capabilities - {name}) else s
      case Unhook(id) => s.(hooks := s.hooks - {id})
      case Custom(_) => s;
    s'.(ran := s.ran + [(n, e)])
  }

  /** The effects run last to first. */
  function RunBack(s: State, n: nat, effects: seq<Effect>): (r: State)
    requires n < |s.scopes|
    ensures r.scopes == s.scopes
    decreases |effects|
  {
    if effects == [] then s
    else RunBack(RunEffect(s, n, effects[|effects| - 1]), n, effects[..|effects| - 1])
  }

  function CloseScope(s: State, n: nat): State
    requires n < |s.scopes|
  {
    if s.scopes[n].closed then s
    else RunBack(s.(scopes := s.scopes[n := s.scopes[n].(closed := true)]), n, s.scopes[n].effects)
  }

  // ---- Lifecycle ----

  function RecordFailure(s: State, id: string): State {
    s.(runtimes := s.runtimes[id := Runtime(Failed, None)])
  }

  predicate DependenciesMet(s: State, f: Factories, id: string)
    requires id in f
  {
    forall d :: d in f[id].dependencies ==> IsRunning(s, d.id) && d.versionOk
  }

  /** A contribution of scope `n` that a running plugin already has. */
  ghost predicate Conflicts(s: State, id: string, n: nat)
    requires n < |s.scopes|
  {
    exists other :: other in s.runtimes && other != id && IsRunning(s, other)
      && s.runtimes[other].scope.Some? && s.runtimes[other].scope.value < |s.scopes|
      && !(s.scopes[s.runtimes[other].scope.value].items !! s.scopes[n].items)
  }

  /** Starts `id` and reports success. */
  ghost function Load(s: State, f: Factories, id: string, start: Startup): (State, bool) {
    if id !in f then (s, false)
    else if !DependenciesMet(s, f, id) || !f[id].hasRunner then (RecordFailure(s, id), false)
    else
      var n := |s.scopes|;
      var s1 := PerformAll(s.(scopes := s.scopes + [Scope(id, [], {}, false)]), f, n, start.acts);
      if start.fails || start.badTool || Conflicts(s1, id, n) then (RecordFailure(CloseScope(s1, n), id), false)
      else (s1.(runtimes := s1.runtimes[id := Runtime(Running, Some(n))]), true)
  }

  datatype Stopped = Stopped | StopFailed | NotRunning | Required

  predicate HasRunningDependent(s: State, f: Factories, id: string) {
    exists other :: other in s.runtimes && other != id && IsRunning(s, other) && other in f
      && id in DependencyIDs(f[other].dependencies)
  }

  /** Stops `id`; the scope closes even when the plugin's own stop fails. */
  function Unload(s: State, f: Factories, id: string, fails: bool): (State, Stopped) {
    if !IsRunning(s, id) then (s, NotRunning)
    else if HasRunningDependent(s, f, id) then (s, Required)
    else
      var scope := s.runtimes[id].scope;
      var s1 := if scope.Some? && scope.value < |s.scopes| then CloseScope(s, scope.value) else s;
      (s1.(runtimes := s1.runtimes[id := Runtime(if fails then Failed else Unloaded, None)]),
       if fails then StopFailed else Stopped.Stopped)
  }

  ghost function Reload(s: State, f: Factories, id: string, fails: bool, start: Startup): State {
    if id !in s.runtimes || id !in f || !f[id].reloadable then s
    else
      var (s1, o) := Unload(s, f, id, fails);
      if o != Stopped.Stopped then s1 else Load(s1, f, id, start).0
  }

  /** An enabled plugin is loaded; a disabled one is only recorded. */
  ghost function StartOne(s: State, f: Factories, id: string, enabled: map<string, bool>, start: Startup): State
    requires id in f
  {
    if if id in enabled then enabled[id] else f[id].defaultEnabled then Load(s, f, id, start).0
    else s.(runtimes := s.runtimes[id := Runtime(Disabled, None)])
  }

  /** Plugins start one after the other, in dependency order. */
  ghost function StartFrom(s: State, f: Factories, ids: seq<string>, enabled: map<string, bool>, starts: map<string, Startup>): State
    requires forall i :: 0 <= i < |ids| ==> ids[i] in f && ids[i] in starts
    decreases |ids|
  {
    if ids == [] then s else
      var id := ids[|ids| - 1];
      StartOne(StartFrom(s, f, ids[..|ids| - 1], enabled, starts), f, id, enabled, starts[id])
  }

  /** Close walks the order backwards; `fails` says whose stop fails. */
  function CloseFrom(s: State, f: Factories, k: nat, fails: set<string>): (State, seq<Stopped>)
    requires k <= |s.order|
    decreases k
  {
    if k == 0 then (s, [])
    else if !IsRunning(s, s.order[k - 1]) then CloseFrom(s, f, k - 1, fails)
    else
      var (s1, o) := Unload(s, f, s.order[k - 1], s.order[k - 1] in fails);
      UnloadKeepsOrder(s, f, s.order[k - 1], s.order[k - 1] in fails);
      var (s2, os) := CloseFrom(s1, f, k - 1, fails);
      (s2, [o] + os)
  }

  lemma {:induction false} RunBackKeeps(s: State, n: nat, effects: seq<Effect>)
    requires n < |s.scopes|
    ensures var r := RunBack(s, n, effects); r.order == s.order && r.runtimes == s.runtimes && r.nextHook == s.nextHook
    decreases |effects|
  {
    if effects != [] { RunBackKeeps(RunEffect(s, n, effects[|effects| - 1]), n, effects[..|effects| - 1]); }
  }

  lemma UnloadKeepsOrder(s: State, f: Factories, id: string, fails: bool)
    ensures Unload(s, f, id, fails).0.order == s.order
  {
    if IsRunning(s, id) {
      var scope := s.runtimes[id].scope;
      if scope.Some? && scope.value < |s.scopes| {
        RunBackKeeps(s.(scopes := s.scopes[scope.value := s.scopes[scope.value].(closed := true)]), scope.value,
                     s.scopes[scope.value].effects);
      }
    }
  }

  /** Contribute is a contribution that a plugin makes at any later time through a scope it has kept. */
  datatype Event =
    | Contribute(n: nat, act: Act)
    | UnloadPlugin(id: string, fails: bool)
    | ReloadPlugin(id: string, fails: bool, start: Startup)
    | Close(failing: set<string>)

  ghost function Step(s: State, f: Factories, e: Event): State {
    match e
    case Contribute(n, act) => if n < |s.scopes| && s.scopes[n].owner in f then Perform(s, f, n, act) else s
    case UnloadPlugin(id, fails) => Unload(s, f, id, fails).0
    case ReloadPlugin(id, fails, start) => Reload(s, f, id, fails, start)
    case Close(failing) => CloseFrom(s, f, |s.order|, failing).0
  }

  ghost function Run(s: State, f: Factories, events: seq<Event>): State
    decreases |events|
  {
    if events == [] then s else Step(Run(s, f, events[..|events| - 1]), f, events[|events| - 1])
  }
}
