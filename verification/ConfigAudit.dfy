/** Managed configuration: revisions, their audit log, and what counts as applied (managed_config.go). */
module ConfigAudit {
  import opened Common

  const MAX_ENTRIES := 50
  const MAX_REVISION: nat := 0xffff_ffff_ffff_ffff
  const CORPUS := 1
  const ZERO_TIME := -62135596800000  // the zero instant, in milliseconds from the epoch

  /** The audited parts, as opaque values. A model's fingerprint stands for all that its qualification depends on. */
  datatype Settings = Settings(
    activation: int, rollout: int, models: map<string, string>, prompt: int, groupDefault: int, soft: int,
    limits: int, plugins: int, tools: int, experiences: int)

  datatype Qualification = Qualification(fingerprint: string, corpus: int, at: int)

  datatype Entry = Entry(revision: nat, at: int, sections: seq<string>)

  datatype Config = Config(
    settings: Settings, qualifications: map<string, Qualification>, revision: nat, updatedAt: int, audit: seq<Entry>)

  /** `past` remembers every configuration that was current; the code keeps no such record. */
  datatype State = State(current: Config, active: Config, past: map<nat, Config>)

  datatype Event =
    | Update(next: Option<Settings>, now: int, saved: bool)
    | Qualify(modelID: string, fingerprint: string, corpus: int, now: int, saved: bool)
    | MarkApplied(revision: nat)

  // ---- Sections ----

  const SECTION_NAMES: set<string> :=
    {"ai_activation", "ai_rollout", "model_validation", "model", "prompt", "behavior", "runtime_limits", "plugins",
     "external_tools", "behavior_experiences", "none"}

  const PARTS: seq<string> :=
    ["ai_activation", "ai_rollout", "model", "prompt", "behavior", "runtime_limits", "plugins", "external_tools",
     "behavior_experiences"]

  /** Which of the parts differ, in the same order. */
  function Changed(a: Settings, b: Settings): seq<bool> {
    [a.activation != b.activation, a.rollout != b.rollout, a.models != b.models, a.prompt != b.prompt,
     a.groupDefault != b.groupDefault || a.soft != b.soft, a.limits != b.limits, a.plugins != b.plugins, a.tools != b.tools,
     a.experiences != b.experiences]
  }

  function Pick(names: seq<string>, flags: seq<bool>): seq<string>
    requires |names| == |flags|
  {
    if names == [] then [] else (if flags[0] then [names[0]] else []) + Pick(names[1..], flags[1..])
  }

  function Differences(a: Settings, b: Settings): seq<string> { Pick(PARTS, Changed(a, b)) }

  predicate Distinct(s: seq<string>) { forall i, j :: 0 <= i < j < |s| ==> s[i] != s[j] }

  lemma {:induction false} PickTells(names: seq<string>, flags: seq<bool>)
    requires |names| == |flags| && Distinct(names)
    ensures |Pick(names, flags)| <= |names| && Distinct(Pick(names, flags))
    ensures forall x :: x in Pick(names, flags) ==> x in names
    ensures forall i :: 0 <= i < |names| ==> (names[i] in Pick(names, flags) <==> flags[i])
  {
    if names != [] {
      PickTells(names[1..], flags[1..]);
      var rest := Pick(names[1..], flags[1..]);
      assert forall x :: x in rest ==> x in names[1..];
      assert names[0] !in rest;
      forall i | 0 <= i < |names| ensures names[i] in Pick(names, flags) <==> flags[i] {
        if i > 0 { assert names[1..][i - 1] == names[i] && flags[1..][i - 1] == flags[i]; }
      }
    }
  }

  function ChangedSections(a: Settings, b: Settings): seq<string> {
    if Differences(a, b) == [] then ["none"] else Differences(a, b)
  }

  predicate ValidSections(s: seq<string>) {
    && 0 < |s| <= 10 && (forall i :: 0 <= i < |s| ==> s[i] in SECTION_NAMES)
    && Distinct(s) && ("none" in s ==> |s| == 1)
  }

  const VALIDATION: seq<string> := ["model_validation"]

  /** A restart is needed for every change but one of the soft behaviour settings. */
  predicate RestartNeeded(a: Config, b: Config) { a.settings.(soft := 0) != b.settings.(soft := 0) }

  // ---- Metadata ----

  predicate Contiguous(audit: seq<Entry>, revision: nat) {
    |audit| <= revision && forall i :: 0 <= i < |audit| ==> audit[i].revision == revision - |audit| + 1 + i
  }

  predicate Increasing(audit: seq<Entry>) {
    && (audit != [] ==> audit[0].at > 0)
    && forall i :: 0 <= i < |audit| - 1 ==> audit[i].at < audit[i + 1].at
  }

  /** What loading the stored file demands. */
  predicate ValidMetadata(c: Config) {
    && c.revision > 0 && c.updatedAt > 0 && 0 < |c.audit| <= MAX_ENTRIES
    && Contiguous(c.audit, c.revision) && Increasing(c.audit)
    && (forall i :: 0 <= i < |c.audit| ==> ValidSections(c.audit[i].sections))
    && c.audit[|c.audit| - 1].at == c.updatedAt
  }

  predicate NeverSaved(c: Config) { c.revision == 0 && c.updatedAt == ZERO_TIME && c.audit == [] }

  method ValidateMetadata(c: Config) returns (ok: bool)
    ensures ok <==> ValidMetadata(c)
  {
    if c.revision == 0 || c.updatedAt <= 0 || |c.audit| == 0 || |c.audit| > MAX_ENTRIES || c.revision < |c.audit| {
      return false;
    }
    var first := c.revision - |c.audit| + 1;
    var previous := 0;
    for i := 0 to |c.audit|
      invariant previous == if i == 0 then 0 else c.audit[i - 1].at
      invariant i > 0 ==> c.audit[0].at > 0
      invariant forall k :: 0 <= k < i ==> c.audit[k].revision == first + k && ValidSections(c.audit[k].sections)
      invariant forall k :: 0 <= k < i - 1 ==> c.audit[k].at < c.audit[k + 1].at
    {
      if c.audit[i].revision != first + i || c.audit[i].at <= previous || !ValidSections(c.audit[i].sections) {
        if c.audit[i].at <= previous { assert i > 0 ==> c.audit[i - 1].at >= c.audit[i - 1 + 1].at; }
        return false;
      }
      previous := c.audit[i].at;
    }
    ok := c.audit[|c.audit| - 1].at == c.updatedAt;
  }

  /** Drops the oldest entries so that one more fits. */
  function AppendAudit(audit: seq<Entry>, e: Entry): seq<Entry> {
    audit[if |audit| >= MAX_ENTRIES then |audit| - MAX_ENTRIES + 1 else 0..] + [e]
  }

  /** A clock that stalls or goes back is pushed past the last revision. */
  function Stamp(c: Config, now: int): int { if now > c.updatedAt then now else c.updatedAt + 1 }

  function Revised(c: Config, settings: Settings, qualifications: map<string, Qualification>, now: int, sections: seq<string>): Config {
    var at := Stamp(c, now);
    Config(settings, qualifications, c.revision + 1, at, AppendAudit(c.audit, Entry(c.revision + 1, at, sections)))
  }

  /** One more revision keeps valid metadata valid whatever the clock says; the first needs a clock past the epoch. */
  lemma RevisionKeepsMetadata(
      c: Config, settings: Settings, qualifications: map<string, Qualification>, now: int, sections: seq<string>)
    requires ValidSections(sections)
    ensures ValidMetadata(c) ==> ValidMetadata(Revised(c, settings, qualifications, now, sections))
    ensures NeverSaved(c) ==> (ValidMetadata(Revised(c, settings, qualifications, now, sections)) <==> now > 0)
  {
  }

  /** The sections name exactly the parts that differ, and never a validation. */
  lemma SectionsTell(a: Settings, b: Settings)
    ensures ValidSections(ChangedSections(a, b)) && ChangedSections(a, b) != VALIDATION
    ensures ChangedSections(a, b) == ["none"] <==> a == b
    ensures forall i :: 0 <= i < |PARTS| ==> (PARTS[i] in ChangedSections(a, b) <==> Changed(a, b)[i])
  {
    DifferencesTell(a, b);
    assert VALIDATION[0] == "model_validation" && ["none"][0] == "none";
    if Differences(a, b) != [] {
      assert Differences(a, b)[0] in PARTS;
    } else {
      assert forall i :: 0 <= i < |PARTS| ==> PARTS[i] != "none";
    }
  }

  /** Each section is named exactly when its own part differs. */
  lemma SectionsExactly(a: Settings, b: Settings)
    ensures var s := ChangedSections(a, b);
      && ("ai_activation" in s <==> a.activation != b.activation) && ("ai_rollout" in s <==> a.rollout != b.rollout)
      && ("model" in s <==> a.models != b.models) && ("prompt" in s <==> a.prompt != b.prompt)
      && ("behavior" in s <==> a.groupDefault != b.groupDefault || a.soft != b.soft)
      && ("runtime_limits" in s <==> a.limits != b.limits) && ("plugins" in s <==> a.plugins != b.plugins)
      && ("external_tools" in s <==> a.tools != b.tools) && ("behavior_experiences" in s <==> a.experiences != b.experiences)
  {
    SectionsTell(a, b);
    assert PARTS[0] == "ai_activation" && PARTS[1] == "ai_rollout" && PARTS[2] == "model" && PARTS[3] == "prompt"
        && PARTS[4] == "behavior";
    assert PARTS[5] == "runtime_limits" && PARTS[6] == "plugins" && PARTS[7] == "external_tools"
        && PARTS[8] == "behavior_experiences";
  }

  lemma DifferencesTell(a: Settings, b: Settings)
    ensures var d := Differences(a, b);
      && |d| <= 9 && Distinct(d) && "none" !in d && "model_validation" !in d
      && (forall i :: 0 <= i < |d| ==> d[i] in SECTION_NAMES && d[i] in PARTS)
      && (forall i :: 0 <= i < |PARTS| ==> (PARTS[i] in d <==> Changed(a, b)[i]))
      && (d == [] <==> a == b)
  {
    PartsAreNames();
    PickTells(PARTS, Changed(a, b));
    var d := Differences(a, b);
    forall i | 0 <= i < |d| ensures d[i] in SECTION_NAMES && d[i] in PARTS { assert d[i] in PARTS; }
    if d == [] { SameParts(a, b); }
    if a == b { NonePicked(PARTS, Changed(a, b)); }
  }

  lemma PartsAreNames()
    ensures Distinct(PARTS) && "none" !in PARTS && "model_validation" !in PARTS
    ensures forall i :: 0 <= i < |PARTS| ==> PARTS[i] in SECTION_NAMES
  {
  }

  lemma SameParts(a: Settings, b: Settings)
    requires forall i :: 0 <= i < |PARTS| ==> !Changed(a, b)[i]
    ensures a == b
  {
    var c := Changed(a, b);
    assert !c[0] && !c[1] && !c[2] && !c[3] && !c[4] && !c[5] && !c[6] && !c[7] && !c[8];
  }

  lemma {:induction false} NonePicked(names: seq<string>, flags: seq<bool>)
    requires |names| == |flags| && forall i :: 0 <= i < |flags| ==> !flags[i]
    ensures Pick(names, flags) == []
  {
    if names != [] { NonePicked(names[1..], flags[1..]); }
  }

  // ---- The manager as a state machine ----

  predicate Current(settings: Settings, id: string, q: Qualification) {
    q.corpus == CORPUS && id in settings.models && settings.models[id] == q.fingerprint
  }

  function Prune(settings: Settings, qs: map<string, Qualification>): map<string, Qualification> {
    map id | id in qs && Current(settings, id, qs[id]) :: qs[id]
  }

  function UpdatedTo(c: Config, settings: Settings, now: int): Config {
    Revised(c, settings, Prune(settings, c.qualifications), now, ChangedSections(c.settings, settings))
  }

  predicate CanQualify(c: Config, id: string, fingerprint: string, corpus: int) {
    corpus == CORPUS && id in c.settings.models && c.settings.models[id] == fingerprint && c.revision < MAX_REVISION
  }

  function QualifiedAs(c: Config, id: string, fingerprint: string, now: int): Config {
    Revised(c, c.settings, Prune(c.settings, c.qualifications[id := Qualification(fingerprint, CORPUS, Stamp(c, now))]), now, VALIDATION)
  }

  /** Every later revision is in the log, in order, and is only a validation. */
  predicate OnlyValidationsAfter(audit: seq<Entry>, revision: nat, current: nat) {
    forall k :: revision < k <= current ==> ValidatedIn(audit, k)
  }

  predicate ValidatedIn(audit: seq<Entry>, k: int) {
    exists i :: 0 <= i < |audit| && audit[i].revision == k && audit[i].sections == VALIDATION
  }

  predicate Applies(s: State, revision: nat) {
    && revision <= s.current.revision && !RestartNeeded(s.active, s.current)
    && (revision != s.current.revision ==> OnlyValidationsAfter(s.current.audit, revision, s.current.revision))
  }

  /** A change that cannot be saved, or for which no revision is left, leaves everything as it was. */
  function Step(s: State, e: Event): State {
    match e
    case Update(next, now, saved) =>
      if next.None? || s.current.revision >= MAX_REVISION || !saved then s else
        var c := UpdatedTo(s.current, next.value, now);
        s.(current := c, past := s.past[c.revision := c])
    case Qualify(id, fingerprint, corpus, now, saved) =>
      if !CanQualify(s.current, id, fingerprint, corpus) || !saved then s else
        var c := QualifiedAs(s.current, id, fingerprint, now);
        State(c, if s.active.revision == s.current.revision then c else s.active, s.past[c.revision := c])
    case MarkApplied(revision) => if Applies(s, revision) then s.(active := s.current) else s
  }

  function Run(s: State, events: seq<Event>): State
    decreases |events|
  {
    if events == [] then s else Step(Run(s, events[..|events| - 1]), events[|events| - 1])
  }

  function Start(c: Config): State { State(c, c, map[c.revision := c]) }

  // ---- The invariant ----

  /** What the log says of a revision that is remembered with its predecessor is true. */
  predicate TrueEntry(past: map<nat, Config>, e: Entry) {
    e.revision > 0 && e.revision in past && e.revision - 1 in past && e.sections == VALIDATION ==>
      past[e.revision].settings == past[e.revision - 1].settings
  }

  predicate Inv(s: State) {
    && Contiguous(s.current.audit, s.current.revision) && |s.current.audit| <= MAX_ENTRIES
    && s.active.revision <= s.current.revision && s.current.revision <= MAX_REVISION
    && s.current.revision in s.past && s.past[s.current.revision] == s.current
    && s.active.revision in s.past && s.past[s.active.revision] == s.active
    && (forall r :: r in s.past ==> r <= s.current.revision && s.past[r].revision == r)
    && (forall r, t :: r in s.past && r <= t <= s.current.revision ==> t in s.past)
    && (forall i :: 0 <= i < |s.current.audit| ==> TrueEntry(s.past, s.current.audit[i]))
  }

  lemma RevisionKeepsInv(
      s: State, settings: Settings, qualifications: map<string, Qualification>, now: int, sections: seq<string>)
    requires Inv(s) && s.current.revision < MAX_REVISION
    requires sections == VALIDATION ==> settings == s.current.settings
    ensures var c := Revised(s.current, settings, qualifications, now, sections);
      Inv(s.(current := c, past := s.past[c.revision := c])) && Inv(State(c, c, s.past[c.revision := c]))
  {
    var c := Revised(s.current, settings, qualifications, now, sections);
    var past := s.past[c.revision := c];
    var drop := if |s.current.audit| >= MAX_ENTRIES then |s.current.audit| - MAX_ENTRIES + 1 else 0;
    forall i | 0 <= i < |c.audit| ensures TrueEntry(past, c.audit[i]) {
      if i < |c.audit| - 1 {
        assert c.audit[i] == s.current.audit[drop + i];
        assert TrueEntry(s.past, s.current.audit[drop + i]);
        assert s.current.audit[drop + i].revision <= s.current.revision;
      }
    }
  }

  lemma StepKeepsInv(s: State, e: Event)
    requires Inv(s)
    ensures Inv(Step(s, e))
  {
    match e {
      case Update(next, now, saved) =>
        if next.Some? && s.current.revision < MAX_REVISION {
          SectionsTell(s.current.settings, next.value);
          RevisionKeepsInv(s, next.value, Prune(next.value, s.current.qualifications), now, ChangedSections(s.current.settings, next.value));
        }
      case Qualify(id, fingerprint, corpus, now, saved) =>
        if CanQualify(s.current, id, fingerprint, corpus) {
          var qs := s.current.qualifications[id := Qualification(fingerprint, CORPUS, Stamp(s.current, now))];
          RevisionKeepsInv(s, s.current.settings, Prune(s.current.settings, qs), now, VALIDATION);
        }
      case MarkApplied(_) =>
    }
  }

  /** A configuration whose file can be read again: none was ever saved, or its metadata is valid. */
  predicate Loadable(c: Config) { NeverSaved(c) || ValidMetadata(c) }

  /** From a loadable configuration, whatever happens and whatever the clock says. */
  lemma {:induction false} RunKeepsInv(c: Config, events: seq<Event>)
    requires Loadable(c) && c.revision <= MAX_REVISION
    ensures Inv(Run(Start(c), events))
    decreases |events|
  {
    if events != [] {
      RunKeepsInv(c, events[..|events| - 1]);
      StepKeepsInv(Run(Start(c), events[..|events| - 1]), events[|events| - 1]);
    } else {
      assert forall i :: 0 <= i < |c.audit| ==> c.audit[i].revision - 1 != c.revision;
    }
  }

  // ---- Which runs stay loadable ----

  function Reading(e: Event): int {
    match e
    case Update(_, now, _) => now
    case Qualify(_, _, _, now, _) => now
    case MarkApplied(_) => 0
  }

  /** The clock reading of the first event of a run that made a revision. */
  function FirstReading(c: Config, events: seq<Event>): Option<int>
    decreases |events|
  {
    if events == [] then None else
      var init := events[..|events| - 1];
      var first := FirstReading(c, init);
      if first.Some? then first
      else if Run(Start(c), events).current.revision > Run(Start(c), init).current.revision
      then Some(Reading(events[|events| - 1]))
      else None
  }

  lemma StepRevises(s: State, e: Event) returns (settings: Settings, qs: map<string, Qualification>, sections: seq<string>)
    ensures ValidSections(sections)
    ensures Step(s, e).current == s.current || Step(s, e).current == Revised(s.current, settings, qs, Reading(e), sections)
  {
    settings, qs, sections := s.current.settings, s.current.qualifications, VALIDATION;
    assert VALIDATION[0] == "model_validation";
    match e {
      case Update(next, now, saved) =>
        if next.Some? {
          settings, qs := next.value, Prune(next.value, s.current.qualifications);
          sections := ChangedSections(s.current.settings, next.value);
          SectionsTell(s.current.settings, next.value);
        }
      case Qualify(id, fingerprint, corpus, now, saved) =>
        qs := Prune(settings, s.current.qualifications[id := Qualification(fingerprint, CORPUS, Stamp(s.current, now))]);
      case MarkApplied(_) =>
    }
  }

  /** A configuration that is saved validly once stays loadable, whatever the clock says later. */
  lemma {:induction false} ValidStaysValid(c: Config, events: seq<Event>)
    requires ValidMetadata(c)
    ensures ValidMetadata(Run(Start(c), events).current)
    decreases |events|
  {
    if events != [] {
      var s, e := Run(Start(c), events[..|events| - 1]), events[|events| - 1];
      ValidStaysValid(c, events[..|events| - 1]);
      var settings, qs, sections := StepRevises(s, e);
      RevisionKeepsMetadata(s.current, settings, qs, Reading(e), sections);
    }
  }

  /** Until the first revision nothing has been saved; from then on the metadata is valid if that reading was past the epoch. */
  lemma {:induction false} FirstReadingDecides(c: Config, events: seq<Event>)
    requires NeverSaved(c)
    ensures var first, now := FirstReading(c, events), Run(Start(c), events).current;
      && (first.None? ==> NeverSaved(now))
      && (first.Some? && first.value > 0 ==> ValidMetadata(now))
    decreases |events|
  {
    if events != [] {
      var s, e := Run(Start(c), events[..|events| - 1]), events[|events| - 1];
      FirstReadingDecides(c, events[..|events| - 1]);
      var settings, qs, sections := StepRevises(s, e);
      RevisionKeepsMetadata(s.current, settings, qs, Reading(e), sections);
    }
  }

  lemma {:induction false} FirstReadingOfPrefix(c: Config, events: seq<Event>, k: nat)
    requires k <= |events|
    ensures FirstReading(c, events[..k]).Some? ==> FirstReading(c, events) == FirstReading(c, events[..k])
    decreases |events|
  {
    if k == |events| {
      assert events[..k] == events;
    } else {
      assert events[..|events| - 1][..k] == events[..k];
      FirstReadingOfPrefix(c, events[..|events| - 1], k);
    }
  }

  /** A first reading at or before the epoch leaves a file that cannot be loaded. */
  lemma {:induction false} EarlyReadingBreaks(c: Config, events: seq<Event>) returns (k: nat)
    requires NeverSaved(c) && FirstReading(c, events).Some? && FirstReading(c, events).value <= 0
    ensures k <= |events| && !Loadable(Run(Start(c), events[..k]).current)
    decreases |events|
  {
    var n := |events| - 1;
    if FirstReading(c, events[..n]).Some? {
      k := EarlyReadingBreaks(c, events[..n]);
      assert events[..n][..k] == events[..k];
    } else {
      k := |events|;
      assert events[..k] == events;
      FirstReadingDecides(c, events[..n]);
      var s := Run(Start(c), events[..n]);
      var settings, qs, sections := StepRevises(s, events[n]);
      RevisionKeepsMetadata(s.current, settings, qs, Reading(events[n]), sections);
    }
  }

  /** Every configuration of a run is loadable exactly when one was saved before, or the first clock reading is past the epoch. */
  lemma StaysLoadableExactly(c: Config, events: seq<Event>)
    requires Loadable(c)
    ensures (forall k :: 0 <= k <= |events| ==> Loadable(Run(Start(c), events[..k]).current)) <==>
      (NeverSaved(c) && FirstReading(c, events).Some? ==> FirstReading(c, events).value > 0)
  {
    if NeverSaved(c) {
      if FirstReading(c, events).Some? && FirstReading(c, events).value <= 0 {
        var k := EarlyReadingBreaks(c, events);
      } else {
        forall k | 0 <= k <= |events| ensures Loadable(Run(Start(c), events[..k]).current) {
          FirstReadingOfPrefix(c, events, k);
          FirstReadingDecides(c, events[..k]);
        }
      }
    } else {
      forall k | 0 <= k <= |events| ensures Loadable(Run(Start(c), events[..k]).current) { ValidStaysValid(c, events[..k]); }
    }
  }

  // ---- What each step does ----

  predicate Fits(settings: Settings, id: string, q: Qualification) {
    id in settings.models && settings.models[id] == q.fingerprint && q.corpus == CORPUS
  }

  /** The newest entries, at most forty-nine of them, stay in the log, and the new one comes last. */
  lemma AuditKeepsNewest(audit: seq<Entry>, e: Entry)
    ensures var r, kept := AppendAudit(audit, e), if |audit| <= 49 then |audit| else 49;
      |audit| <= 50 ==> |r| == kept + 1 && r[kept] == e && r[..kept] == audit[|audit| - kept..]
  {
  }

  /** What a saved update leaves: the next revision with the new settings, the qualifications that still fit, and a log entry. */
  lemma UpdateExactly(s: State, next: Settings, now: int)
    requires s.current.revision < MAX_REVISION
    ensures var r, was := Step(s, Update(Some(next), now, true)), s.current;
      && r.active == s.active && r.current.revision == was.revision + 1 && r.current.settings == next
      && r.current.updatedAt == (if now > was.updatedAt then now else was.updatedAt + 1)
      && (forall id :: id in r.current.qualifications <==> id in was.qualifications && Fits(next, id, was.qualifications[id]))
      && (forall id :: id in r.current.qualifications ==> r.current.qualifications[id] == was.qualifications[id])
      && r.current.audit == AppendAudit(was.audit, Entry(was.revision + 1, r.current.updatedAt, ChangedSections(was.settings, next)))
  {
  }

  /** A qualification is taken exactly when it is of the present corpus and of the model as configured, and a revision is left. */
  lemma QualifyExactly(s: State, id: string, fingerprint: string, corpus: int, now: int)
    ensures var r, was := Step(s, Qualify(id, fingerprint, corpus, now, true)), s.current;
      var fits := corpus == CORPUS && id in was.settings.models && was.settings.models[id] == fingerprint;
      var at := if now > was.updatedAt then now else was.updatedAt + 1;
      && (!(fits && was.revision < MAX_REVISION) ==> r == s)
      && (fits && was.revision < MAX_REVISION ==>
            && r.current.revision == was.revision + 1 && r.current.settings == was.settings && r.current.updatedAt == at
            && id in r.current.qualifications && r.current.qualifications[id] == Qualification(fingerprint, corpus, at)
            && (forall x :: x in r.current.qualifications && x != id ==>
                  x in was.qualifications && r.current.qualifications[x] == was.qualifications[x])
            && (forall x :: x in was.qualifications && Fits(was.settings, x, was.qualifications[x]) ==> x in r.current.qualifications)
            && r.current.audit == AppendAudit(was.audit, Entry(was.revision + 1, at, VALIDATION))
            && r.active == if s.active.revision == was.revision then r.current else s.active)
  {
  }

  /** Nothing changes when nothing is to be changed, no revision is left or saving fails. */
  lemma UnsavedChangesNothing(s: State, next: Option<Settings>, now: int, id: string, fingerprint: string, corpus: int)
    ensures next.None? || s.current.revision >= MAX_REVISION ==> Step(s, Update(next, now, true)) == s
    ensures Step(s, Update(next, now, false)) == s && Step(s, Qualify(id, fingerprint, corpus, now, false)) == s
  {
  }

  /**
   * A report of a revision is taken exactly when it is not ahead of the current one, every later revision is in the log as a
   * validation, and the active settings differ from the current ones in the soft behaviour at most.
   */
  lemma AppliesExactly(s: State, revision: nat)
    ensures var a, c := s.active.settings, s.current.settings;
      var same := a.activation == c.activation && a.rollout == c.rollout && a.models == c.models && a.prompt == c.prompt
        && a.groupDefault == c.groupDefault && a.limits == c.limits && a.plugins == c.plugins && a.tools == c.tools
        && a.experiences == c.experiences;
      var audit := s.current.audit;
      && (forall k :: ValidatedIn(audit, k) <==>
            exists i :: 0 <= i < |audit| && audit[i].revision == k && audit[i].sections == ["model_validation"])
      && (Applies(s, revision) <==>
            (same && revision <= s.current.revision && forall k :: revision < k <= s.current.revision ==> ValidatedIn(audit, k)))
      && Step(s, MarkApplied(revision)) == (if Applies(s, revision) then s.(active := s.current) else s)
  {
  }

  // ---- What applied means ----

  /** An applied older revision had just the settings that are current now; only qualifications came after it. */
  lemma {:induction false} AppliedMeansSameSettings(s: State, revision: nat)
    requires Inv(s) && revision in s.past
    requires OnlyValidationsAfter(s.current.audit, revision, s.current.revision)
    ensures s.past[revision].settings == s.current.settings
    decreases s.current.revision - revision
  {
    if revision < s.current.revision {
      var next := revision + 1;
      AppliedMeansSameSettings(s, next);
      assert ValidatedIn(s.current.audit, next);
      var i :| 0 <= i < |s.current.audit| && s.current.audit[i].revision == next && s.current.audit[i].sections == VALIDATION;
      assert TrueEntry(s.past, s.current.audit[i]);
    }
  }

  /** So after a report about any remembered revision was taken, what is active is what was current at that revision. */
  lemma MarkAppliedIsHonest(c: Config, events: seq<Event>, revision: nat)
    requires Loadable(c) && c.revision <= MAX_REVISION
    requires revision in Run(Start(c), events).past && Applies(Run(Start(c), events), revision)
    ensures var s := Run(Start(c), events);
      Step(s, MarkApplied(revision)).active == s.current && s.past[revision].settings == s.current.settings
  {
    RunKeepsInv(c, events);
    var s := Run(Start(c), events);
    AppliedMeansSameSettings(s, revision);
  }

  /** A revision with more than fifty later ones is never taken, however small these were. */
  lemma ForgottenIsNotApplied(s: State, revision: nat)
    requires Inv(s) && revision + MAX_ENTRIES < s.current.revision
    ensures !Applies(s, revision)
  {
    assert forall i :: 0 <= i < |s.current.audit| ==> s.current.audit[i].revision > revision + 1;
    assert !ValidatedIn(s.current.audit, revision + 1);
  }

  // ---- Qualifications ----

  predicate AllCurrent(c: Config) { forall id :: id in c.qualifications ==> Current(c.settings, id, c.qualifications[id]) }

  /** Whatever is stored qualifies the models as they are configured at that revision. */
  lemma {:induction false} QualificationsStayCurrent(c: Config, events: seq<Event>)
    requires AllCurrent(c)
    ensures var s := Run(Start(c), events); AllCurrent(s.current) && AllCurrent(s.active)
    decreases |events|
  {
    if events != [] { QualificationsStayCurrent(c, events[..|events| - 1]); }
  }

  // ---- In place ----

  /** Walks the log once, expecting each later revision in turn. */
  method OnlyValidations(audit: seq<Entry>, revision: nat, current: nat) returns (ok: bool)
    requires Contiguous(audit, current) && revision < current
    ensures ok <==> OnlyValidationsAfter(audit, revision, current)
  {
    var expected := revision + 1;
    for i := 0 to |audit|
      invariant revision < expected <= current + 1
      invariant forall k :: revision < k < expected ==> ValidatedIn(audit, k)
      invariant expected > revision + 1 && i < |audit| ==> audit[i].revision == expected
      invariant forall j :: 0 <= j < i ==> audit[j].revision < expected
    {
      if audit[i].revision <= revision { continue; }
      if audit[i].revision != expected || audit[i].sections != VALIDATION {
        assert !ValidatedIn(audit, expected);
        return false;
      }
      assert ValidatedIn(audit, expected);
      expected := expected + 1;
    }
    ok := expected == current + 1;
    assert !ok ==> !ValidatedIn(audit, expected);
  }

  class ConfigManager {
    var current: Config
    var active: Config
    ghost var past: map<nat, Config>

    constructor (c: Config)
      ensures View() == Start(c)
    {
      current, active, past := c, c, map[c.revision := c];
    }

    ghost function View(): State reads this { State(current, active, past) }

    method UpdateWithResult(next: Option<Settings>, now: int, saved: bool) returns (ok: bool)
      modifies this
      ensures View() == Step(old(View()), Update(next, now, saved))
      ensures ok <==> next.Some? && old(current).revision < MAX_REVISION && saved
    {
      if next.None? || current.revision >= MAX_REVISION { return false; }
      var sections := ChangedSections(current.settings, next.value);
      var updatedAt := now;
      if !(updatedAt > current.updatedAt) { updatedAt := current.updatedAt + 1; }
      var audit := AppendAudit(current.audit, Entry(current.revision + 1, updatedAt, sections));
      if !saved { return false; }
      current := Config(next.value, Prune(next.value, current.qualifications), current.revision + 1, updatedAt, audit);
      past := past[current.revision := current];
      ok := true;
    }

    method RecordModelQualification(id: string, fingerprint: string, corpus: int, now: int, saved: bool) returns (ok: bool)
      modifies this
      ensures View() == Step(old(View()), Qualify(id, fingerprint, corpus, now, saved))
      ensures ok <==> CanQualify(old(current), id, fingerprint, corpus) && saved
    {
      if corpus != CORPUS { return false; }
      if id !in current.settings.models || current.settings.models[id] != fingerprint { return false; }
      if current.revision >= MAX_REVISION { return false; }
      var qualifiedAt := now;
      if !(qualifiedAt > current.updatedAt) { qualifiedAt := current.updatedAt + 1; }
      var qualifications := Prune(current.settings, current.qualifications[id := Qualification(fingerprint, corpus, qualifiedAt)]);
      var audit := AppendAudit(current.audit, Entry(current.revision + 1, qualifiedAt, VALIDATION));
      var wasFullyApplied := active.revision == current.revision;
      if !saved { return false; }
      current := Config(current.settings, qualifications, current.revision + 1, qualifiedAt, audit);
      past := past[current.revision := current];
      if wasFullyApplied { active := current; }
      ok := true;
    }

    method MarkRevisionApplied(revision: nat) returns (ok: bool)
      requires Inv(View())
      modifies this`active
      ensures View() == Step(old(View()), MarkApplied(revision))
      ensures ok <==> Applies(old(View()), revision)
    {
      if revision > current.revision || RestartNeeded(active, current) { return false; }
      if revision != current.revision {
        var fine := OnlyValidations(current.audit, revision, current.revision);
        if !fine { return false; }
      }
      active := current;
      ok := true;
    }
  }
}
