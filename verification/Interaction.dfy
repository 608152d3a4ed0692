/** Reducers that fold the event log of an interaction into its state (dynamic_interaction.go). */
module Interaction {
  import opened Common

  /** Strings are taken as already trimmed and in lower case; an absent payload field is empty. */
  datatype Event = Event(actor: string, action: string, option: string, value: string, item: string, completed: Option<bool>)

  datatype Reduction = Reduction(counts: map<string, nat>, responded: nat, total: int, status: string, closed: bool)

  function Value(e: Event): string {
    if e.option != "" then e.option else if e.value != "" then e.value else e.action
  }

  function Total(configured: int, observed: nat): int {
    var t := if configured < observed then observed else configured;
    if t < 1 then 1 else t
  }

  const POSITIVE_WORDS: set<string> :=
    {"approve", "approved", "allow", "confirm", "confirmed", "yes", "complete", "completed", "checked", "true"}

  const NEGATIVE_WORDS: set<string> := {"reject", "rejected", "deny", "denied", "no", "cancel", "cancelled", "false"}

  predicate Positive(v: string) { v in POSITIVE_WORDS }

  predicate Negative(v: string) { v in NEGATIVE_WORDS }

  // ---- The latest event of each actor ----

  function Latest(events: seq<Event>): map<string, Event>
    decreases |events|
  {
    if events == [] then map[] else
      var e := events[|events| - 1];
      Latest(events[..|events| - 1])[e.actor := e]
  }

  /** The events of one actor, in order. */
  function Own(events: seq<Event>, actor: string): seq<Event>
    decreases |events|
  {
    if events == [] then [] else
      var e := events[|events| - 1];
      Own(events[..|events| - 1], actor) + if e.actor == actor then [e] else []
  }

  lemma {:induction false} LatestIsLastOwn(events: seq<Event>, actor: string)
    ensures actor in Latest(events) <==> Own(events, actor) != []
    ensures actor in Latest(events) ==> Latest(events)[actor] == Own(events, actor)[|Own(events, actor)| - 1]
    decreases |events|
  {
    if events != [] { LatestIsLastOwn(events[..|events| - 1], actor); }
  }

  /** Only each actor's own order matters: two interleavings of the same actors' events reduce alike. */
  lemma InterleavingsAgree(a: seq<Event>, b: seq<Event>)
    requires forall actor :: Own(a, actor) == Own(b, actor)
    ensures Latest(a) == Latest(b)
  {
    var x, y := Latest(a), Latest(b);
    forall actor ensures (actor in x <==> actor in y) && (actor in x ==> x[actor] == y[actor]) {
      LatestAgree(a, b, actor);
    }
  }

  lemma LatestAgree(a: seq<Event>, b: seq<Event>, actor: string)
    requires Own(a, actor) == Own(b, actor)
    ensures actor in Latest(a) <==> actor in Latest(b)
    ensures actor in Latest(a) ==> Latest(a)[actor] == Latest(b)[actor]
  {
    LatestIsLastOwn(a, actor);
    LatestIsLastOwn(b, actor);
  }

  lemma {:induction false} OwnConcat(a: seq<Event>, b: seq<Event>, actor: string)
    ensures Own(a + b, actor) == Own(a, actor) + Own(b, actor)
    decreases |b|
  {
    if b == [] {
      assert a + b == a;
    } else {
      OwnConcat(a, b[..|b| - 1], actor);
      assert (a + b)[..|a + b| - 1] == a + b[..|b| - 1];
    }
  }

  lemma NeighboursCommute(before: seq<Event>, x: Event, y: Event, after: seq<Event>)
    requires x.actor != y.actor
    ensures Latest(before + [x, y] + after) == Latest(before + [y, x] + after)
  {
    forall actor ensures Own(before + [x, y] + after, actor) == Own(before + [y, x] + after, actor) {
      OwnConcat(before + [x, y], after, actor);
      OwnConcat(before, [x, y], actor);
      OwnConcat(before + [y, x], after, actor);
      OwnConcat(before, [y, x], actor);
      OwnPair(x, y, actor);
      OwnPair(y, x, actor);
    }
    InterleavingsAgree(before + [x, y] + after, before + [y, x] + after);
  }

  lemma OwnPair(x: Event, y: Event, actor: string)
    ensures Own([x, y], actor) == (if x.actor == actor then [x] else []) + if y.actor == actor then [y] else []
  {
    assert [x, y][..1] == [x] && [x][..0] == [];
    assert Own([x], actor) == if x.actor == actor then [x] else [];
  }

  /** Everybody who has answered. */
  function Actors(events: seq<Event>): set<string> { set e | e in events :: e.actor }

  lemma {:induction false} LatestNamesActors(events: seq<Event>)
    ensures forall a :: a in Latest(events) ==> Latest(events)[a].actor == a
    ensures Latest(events).Keys == Actors(events)
    decreases |events|
  {
    if events != [] {
      var n := |events| - 1;
      LatestNamesActors(events[..n]);
      assert events == events[..n] + [events[n]];
    }
  }

  method LatestByActor(events: seq<Event>) returns (latest: map<string, Event>)
    ensures latest == Latest(events)
  {
    latest := map[];
    for i := 0 to |events|
      invariant latest == Latest(events[..i])
    {
      assert events[..i + 1][..i] == events[..i];
      latest := latest[events[i].actor := events[i]];
    }
    assert events[..|events|] == events;
  }

  // ---- Counting ----

  function Choosers<K>(choices: map<K, string>, v: string): set<K> { set a | a in choices && choices[a] == v }

  /** How many chose each value; values nobody chose are absent. */
  function Tally<K>(choices: map<K, string>): map<string, nat> {
    map v | v in choices.Values :: |Choosers(choices, v)|
  }

  function CountOf(counts: map<string, nat>, v: string): nat { if v in counts then counts[v] else 0 }

  lemma CountIs<K>(choices: map<K, string>, v: string)
    ensures CountOf(Tally(choices), v) == |Choosers(choices, v)|
  {
  }

  lemma OneMoreChooser<K>(choices: map<K, string>, a: K, v: string, w: string)
    requires a !in choices
    ensures |Choosers(choices[a := v], w)| == |Choosers(choices, w)| + if w == v then 1 else 0
  {
    if w == v {
      assert Choosers(choices[a := v], v) == Choosers(choices, v) + {a};
    } else {
      assert Choosers(choices[a := v], w) == Choosers(choices, w);
    }
  }

  lemma MoreValues<K>(choices: map<K, string>, a: K, v: string)
    requires a !in choices
    ensures choices[a := v].Values == choices.Values + {v}
  {
    var more := choices[a := v];
    forall x | x in choices.Values + {v} ensures x in more.Values {
      if x == v {
        assert more[a] == v;
      } else {
        var k :| k in choices && choices[k] == x;
        assert more[k] == x;
      }
    }
  }

  lemma TallyOneMore<K>(choices: map<K, string>, a: K, v: string)
    requires a !in choices
    ensures Tally(choices[a := v]) == Tally(choices)[v := CountOf(Tally(choices), v) + 1]
  {
    var now, later := Tally(choices[a := v]), Tally(choices)[v := CountOf(Tally(choices), v) + 1];
    MoreValues(choices, a, v);
    assert now.Keys == later.Keys;
    forall w | w in now ensures now[w] == later[w] {
      OneMoreChooser(choices, a, v, w);
      CountIs(choices, w);
    }
  }

  /** The loop over the map of choices, in whatever order. */
  method CountChoices<K(==)>(choices: map<K, string>) returns (counts: map<string, nat>)
    ensures counts == Tally(choices)
  {
    counts := map[];
    var left := choices.Keys;
    ghost var done: map<K, string> := map[];
    while left != {}
      invariant left <= choices.Keys && done == choices - left
      invariant counts == Tally(done)
      decreases |left|
    {
      var actor :| actor in left;
      var value := choices[actor];
      TallyOneMore(done, actor, value);
      counts := counts[value := CountOf(counts, value) + 1];
      done := done[actor := value];
      left := left - {actor};
      assert done == choices - left;
    }
    assert done == choices;
  }

  /** Each actor is counted once, so the counts sum to the number of actors. */
  lemma {:induction false} TallySums<K>(choices: map<K, string>)
    ensures Sum(Tally(choices)) == |choices|
    decreases |choices|
  {
    if choices == map[] {
      assert Tally(choices) == map[];
    } else {
      var a :| a in choices;
      var rest, v := choices - {a}, choices[a];
      TallySums(rest);
      TallyOneMore(rest, a, v);
      assert rest[a := v] == choices;
      SumUpdate(Tally(rest), v, CountOf(Tally(rest), v) + 1);
    }
  }

  function SetChoices(latest: map<string, Event>, kind: string): map<string, string> {
    map a | a in latest :: if Value(latest[a]) == "" then kind else Value(latest[a])
  }

  method ReduceSetByActor(events: seq<Event>, configured: int, kind: string) returns (r: Reduction)
    ensures r.counts == Tally(SetChoices(Latest(events), kind))
    ensures r.responded == |Latest(events)| && r.total == Total(configured, r.responded)
    ensures r.status == "active" && !r.closed
  {
    var latest := LatestByActor(events);
    var counts := CountChoices(SetChoices(latest, kind));
    r := Reduction(counts, |latest|, Total(configured, |latest|), "active", false);
  }

  /** Everybody who answered is counted once and within the total, however the log was interleaved. */
  lemma SetByActorCounts(events: seq<Event>, configured: int, kind: string)
    ensures Sum(Tally(SetChoices(Latest(events), kind))) == |Latest(events)|
      == |Actors(events)| <= Total(configured, |Latest(events)|)
  {
    TallySums(SetChoices(Latest(events), kind));
    LatestNamesActors(events);
    assert SetChoices(Latest(events), kind).Keys == Latest(events).Keys;
    SameSize(SetChoices(Latest(events), kind), Latest(events));
  }

  lemma SameSize<K, V, W>(a: map<K, V>, b: map<K, W>)
    requires a.Keys == b.Keys
    ensures |a| == |b| == |a.Keys|
  {
  }

  // ---- Approval ----

  function Choices(latest: map<string, Event>): map<string, string> { map a | a in latest :: Value(latest[a]) }

  /** Those whose latest answer is among `words`. */
  function Voters(latest: map<string, Event>, words: set<string>): set<string> {
    set a | a in latest && Value(latest[a]) in words
  }

  function Approvers(latest: map<string, Event>): set<string> { Voters(latest, POSITIVE_WORDS) }

  function Rejecters(latest: map<string, Event>): set<string> { Voters(latest, NEGATIVE_WORDS) }

  datatype Policy = Policy(quorum: int, veto: bool, closeOnResponse: bool, configured: int)

  function Quorum(p: Policy, latest: map<string, Event>): int {
    if p.quorum <= 0 then Total(p.configured, |latest|) else p.quorum
  }

  /** A request is approved when enough approve and, under veto, nobody rejects. */
  predicate Approved(p: Policy, latest: map<string, Event>) { Passes(p, latest, POSITIVE_WORDS, NEGATIVE_WORDS) }

  predicate Passes(p: Policy, latest: map<string, Event>, positive: set<string>, negative: set<string>) {
    !(p.veto && Voters(latest, negative) != {}) && |Voters(latest, positive)| >= Quorum(p, latest)
  }

  function Status(p: Policy, events: seq<Event>): string {
    var latest := Latest(events);
    if p.closeOnResponse && events != [] then
      var last := Value(events[|events| - 1]);
      if last == "modify" then "pending" else if Negative(last) then "rejected" else "approved"
    else if p.veto && Rejecters(latest) != {} then "rejected"
    else if Approved(p, latest) then "approved"
    else "pending"
  }

  lemma {:induction false} NobodyWithoutEvents(events: seq<Event>)
    ensures Latest(events) == map[] <==> events == []
    decreases |events|
  {
    if events != [] { assert events[|events| - 1].actor in Latest(events); }
  }

  method ReduceApprovalQuorum(events: seq<Event>, p: Policy) returns (r: Reduction, approved: nat, rejected: nat, quorum: int)
    ensures r == Reduction(Tally(Choices(Latest(events))), |Latest(events)|, Total(p.configured, |Latest(events)|),
      Status(p, events), Status(p, events) != "pending")
    ensures approved == |Approvers(Latest(events))| && rejected == |Rejecters(Latest(events))|
    ensures quorum == Quorum(p, Latest(events))
  {
    var latest := LatestByActor(events);
    var counts := CountChoices(Choices(latest));
    approved, rejected := CountVotes(latest, POSITIVE_WORDS, NEGATIVE_WORDS);
    var total := Total(p.configured, |latest|);
    quorum := p.quorum;
    if quorum <= 0 { quorum := total; }
    var status, closed := Decide(events, p, latest, approved, rejected, quorum);
    r := Reduction(counts, |latest|, total, status, closed);
  }

  method Decide(events: seq<Event>, p: Policy, latest: map<string, Event>, approved: nat, rejected: nat, quorum: int)
    returns (status: string, closed: bool)
    requires latest == Latest(events) && quorum == Quorum(p, latest)
    requires approved == |Voters(latest, POSITIVE_WORDS)| && rejected == |Voters(latest, NEGATIVE_WORDS)|
    ensures status == Status(p, events) && (closed <==> status != "pending")
  {
    NobodyWithoutEvents(events);
    assert "pending"[0] == 'p' && "rejected"[0] == 'r' && "approved"[0] == 'a';
    if p.closeOnResponse && |latest| > 0 {
      var last := Value(events[|events| - 1]);
      if last == "modify" { return "pending", false; }
      return if Negative(last) then "rejected" else "approved", true;
    }
    if p.veto && rejected > 0 { return "rejected", true; }
    if approved >= quorum { return "approved", true; }
    return "pending", false;
  }

  method CountVotes(latest: map<string, Event>, positive: set<string>, negative: set<string>) returns (approved: nat, rejected: nat)
    requires positive !! negative
    ensures approved == |Voters(latest, positive)| && rejected == |Voters(latest, negative)|
  {
    approved, rejected := 0, 0;
    var left := latest.Keys;
    ghost var ayes, noes := Voters(latest, positive), Voters(latest, negative);
    while left != {}
      invariant left <= latest.Keys
      invariant approved == |ayes - left| && rejected == |noes - left|
      decreases |left|
    {
      var actor :| actor in left;
      OneLess(ayes, left, actor);
      OneLess(noes, left, actor);
      var value := Value(latest[actor]);
      if value in positive {
        approved := approved + 1;
      } else if value in negative {
        rejected := rejected + 1;
      }
      left := left - {actor};
    }
    assert ayes - {} == ayes && noes - {} == noes;
  }

  lemma OneLess(voters: set<string>, left: set<string>, actor: string)
    requires actor in left
    ensures |voters - (left - {actor})| == |voters - left| + if actor in voters then 1 else 0
  {
    if actor in voters {
      assert voters - (left - {actor}) == (voters - left) + {actor};
    } else {
      assert voters - (left - {actor}) == voters - left;
    }
  }

  /** Nobody both approves and rejects, and all who do have responded. */
  lemma VotesAreBounded(latest: map<string, Event>, configured: int)
    ensures |Approvers(latest)| + |Rejecters(latest)| <= |latest| <= Total(configured, |latest|)
  {
    WordsAreDisjoint();
    TwoKindsOfVoters(latest, POSITIVE_WORDS, NEGATIVE_WORDS);
  }

  lemma WordsAreDisjoint()
    ensures POSITIVE_WORDS !! NEGATIVE_WORDS
  {
  }

  lemma TwoKindsOfVoters(latest: map<string, Event>, positive: set<string>, negative: set<string>)
    requires positive !! negative
    ensures |Voters(latest, positive)| + |Voters(latest, negative)| <= |latest|
  {
    var all := Voters(latest, positive) + Voters(latest, negative);
    assert Voters(latest, positive) !! Voters(latest, negative);
    assert all <= latest.Keys;
    SubsetSize(all, latest.Keys);
    assert |latest.Keys| == |latest|;
  }

  /** What event `e` has to be for an approval to outlast it. */
  predicate KeepsApproval(p: Policy, latest: map<string, Event>, e: Event) {
    if p.closeOnResponse then Value(e) != "modify" && !Negative(Value(e))
    else Keeps(p, latest, e, POSITIVE_WORDS, NEGATIVE_WORDS)
  }

  predicate Keeps(p: Policy, latest: map<string, Event>, e: Event, positive: set<string>, negative: set<string>) {
    || Value(e) in positive
    || (!(p.veto && Value(e) in negative) && p.quorum > 0 && |Voters(latest, positive) - {e.actor}| >= p.quorum)
  }

  lemma StatusSays(p: Policy, events: seq<Event>)
    ensures !p.closeOnResponse ==> (Status(p, events) == "approved" <==> Approved(p, Latest(events)))
    ensures p.closeOnResponse && events != [] ==>
      var last := Value(events[|events| - 1]);
      (Status(p, events) == "approved" <==> last != "modify" && !Negative(last))
  {
    assert "pending"[0] == 'p' && "rejected"[0] == 'r' && "approved"[0] == 'a';
  }

  /**
   * One more event keeps the status "approved" exactly when it is positive, or, with a fixed quorum, enough others approve
   * and it is no veto; with the default quorum any other answer undoes the approval. Where a response closes the request,
   * only the last answer counts: it must be neither a modification nor negative.
   */
  lemma ApprovalIsKeptExactly(p: Policy, events: seq<Event>, e: Event)
    requires Status(p, events) == "approved"
    ensures Status(p, events + [e]) == "approved" <==> KeepsApproval(p, Latest(events), e)
  {
    StatusSays(p, events);
    StatusSays(p, events + [e]);
    assert (events + [e])[..|events|] == events;
    if !p.closeOnResponse { VotesKeepExactly(p, Latest(events), e); }
  }

  lemma VotesKeepExactly(p: Policy, latest: map<string, Event>, e: Event)
    requires Approved(p, latest)
    ensures Approved(p, latest[e.actor := e]) <==> Keeps(p, latest, e, POSITIVE_WORDS, NEGATIVE_WORDS)
  {
    WordsAreDisjoint();
    if Value(e) in POSITIVE_WORDS {
      PositiveKeeps(p, latest, e, POSITIVE_WORDS, NEGATIVE_WORDS);
    } else {
      OtherKeepsExactly(p, latest, e, POSITIVE_WORDS, NEGATIVE_WORDS);
    }
  }

  lemma PositiveKeeps(p: Policy, latest: map<string, Event>, e: Event, positive: set<string>, negative: set<string>)
    requires positive !! negative && Passes(p, latest, positive, negative) && Value(e) in positive
    ensures Passes(p, latest[e.actor := e], positive, negative)
  {
    var now := latest[e.actor := e];
    assert p.veto ==> Voters(now, negative) == {} by { AfterOne(latest, e, negative); }
    AfterSize(latest, e, positive);
    TwoKindsOfVoters(latest, positive, {});
    QuorumFollows(p, |latest|, |Voters(latest, positive)|, |now|, |Voters(now, positive)|);
  }

  lemma QuorumFollows(p: Policy, n: nat, votes: nat, n': nat, votes': nat)
    requires votes <= n && votes <= votes' && n' - n <= votes' - votes && n <= n'
    ensures p.quorum <= 0 && votes >= Total(p.configured, n) ==> votes' >= Total(p.configured, n')
  {
  }

  lemma OtherKeepsExactly(p: Policy, latest: map<string, Event>, e: Event, positive: set<string>, negative: set<string>)
    requires Passes(p, latest, positive, negative) && Value(e) !in positive
    ensures Passes(p, latest[e.actor := e], positive, negative) <==> Keeps(p, latest, e, positive, negative)
  {
    AfterOne(latest, e, positive);
    AfterOne(latest, e, negative);
    if p.quorum <= 0 { OneDoesNot(latest[e.actor := e], e, positive); }
  }

  lemma OneDoesNot(now: map<string, Event>, e: Event, words: set<string>)
    requires e.actor in now && now[e.actor] == e && Value(e) !in words
    ensures |Voters(now, words)| < |now|
  {
    assert Voters(now, words) <= now.Keys - {e.actor};
    SubsetSize(Voters(now, words), now.Keys - {e.actor});
    assert |now.Keys - {e.actor}| == |now.Keys| - 1 && |now.Keys| == |now|;
  }

  lemma AfterOne(latest: map<string, Event>, e: Event, words: set<string>)
    ensures Voters(latest[e.actor := e], words) ==
      (Voters(latest, words) - {e.actor}) + (if Value(e) in words then {e.actor} else {})
  {
  }

  lemma AfterSize(latest: map<string, Event>, e: Event, words: set<string>)
    requires Value(e) in words
    ensures |latest[e.actor := e]| == |latest| + if e.actor in latest then 0 else 1
    ensures |Voters(latest[e.actor := e], words)| == |Voters(latest, words)| + if e.actor in Voters(latest, words) then 0 else 1
    ensures |latest[e.actor := e]| > |latest| ==> e.actor !in Voters(latest, words)
  {
    AfterOne(latest, e, words);
    assert Voters(latest[e.actor := e], words) == Voters(latest, words) + {e.actor};
    if e.actor in latest {
      assert latest[e.actor := e].Keys == latest.Keys;
      assert |latest[e.actor := e].Keys| == |latest[e.actor := e]| && |latest.Keys| == |latest|;
    }
  }

  /** So the status "approved" outlasts any run of positive events, under every policy. */
  lemma {:induction false} ApprovalIsStable(p: Policy, events: seq<Event>, more: seq<Event>)
    requires Status(p, events) == "approved" && forall i :: 0 <= i < |more| ==> Positive(Value(more[i]))
    ensures Status(p, events + more) == "approved"
    decreases |more|
  {
    if more == [] {
      assert events + more == events;
    } else {
      var n := |more| - 1;
      ApprovalIsStable(p, events, more[..n]);
      assert events + more == (events + more[..n]) + [more[n]];
      ApprovalIsKeptExactly(p, events + more[..n], more[n]);
      PositiveIsNoRefusal(Value(more[n]));
    }
  }

  lemma PositiveIsNoRefusal(v: string)
    requires Positive(v)
    ensures v != "modify" && !Negative(v)
  {
    WordsAreDisjoint();
    assert "modify" !in POSITIVE_WORDS;
  }

  /** With the default quorum a second answer that is not positive undoes an approval; so does a modification where responses close. */
  lemma AnswersCanUndoApproval()
    ensures var yes, no, change := Event("a", "approve", "", "", "", None), Event("b", "reject", "", "", "", None), Event("b", "modify", "", "", "", None);
      var votes, last := Policy(0, false, false, 1), Policy(1, false, true, 2);
      && Status(votes, [yes]) == "approved" && Status(votes, [yes, no]) != "approved"
      && Status(last, [yes]) == "approved" && Status(last, [yes, change]) != "approved"
  {
    var yes, no, change := Event("a", "approve", "", "", "", None), Event("b", "reject", "", "", "", None), Event("b", "modify", "", "", "", None);
    var votes, last := Policy(0, false, false, 1), Policy(1, false, true, 2);
    WordsAreDisjoint();
    assert "approve" in POSITIVE_WORDS && "reject" in NEGATIVE_WORDS && "approve" != "modify";
    assert Latest([yes]) == map["a" := yes] by { assert [yes][..0] == []; }
    assert Approvers(Latest([yes])) == {"a"} && Rejecters(Latest([yes])) == {};
    StatusSays(votes, [yes]);
    StatusSays(last, [yes]);
    ApprovalIsKeptExactly(votes, [yes], no);
    ApprovalIsKeptExactly(last, [yes], change);
    assert [yes] + [no] == [yes, no] && [yes] + [change] == [yes, change];
  }

  // ---- What is counted, and when a request is approved ----

  /** The total is the largest of what is configured, what was observed, and one. */
  lemma TotalIs(configured: int, observed: nat)
    ensures Total(configured, observed) >= configured && Total(configured, observed) >= observed && Total(configured, observed) >= 1
    ensures Total(configured, observed) == configured || Total(configured, observed) == observed || Total(configured, observed) == 1
  {
  }

  /** The words that approve and those that reject. */
  lemma WordsExactly(v: string)
    ensures Positive(v) <==>
      || v == "approve" || v == "approved" || v == "allow" || v == "confirm" || v == "confirmed" || v == "yes"
      || v == "complete" || v == "completed" || v == "checked" || v == "true"
    ensures Negative(v) <==>
      || v == "reject" || v == "rejected" || v == "deny" || v == "denied" || v == "no" || v == "cancel" || v == "cancelled"
      || v == "false"
  {
  }

  /** An actor's last event is what counts, with its option, else its value, else its action, else the kind. */
  lemma {:induction false} LastAnswerCounts(events: seq<Event>, i: nat, kind: string)
    requires i < |events| && forall j :: i < j < |events| ==> events[j].actor != events[i].actor
    ensures var e := events[i];
      && e.actor in Latest(events) && Latest(events)[e.actor] == e
      && (e.option != "" ==> Choices(Latest(events))[e.actor] == SetChoices(Latest(events), kind)[e.actor] == e.option)
      && (e.option == "" && e.value != "" ==> Choices(Latest(events))[e.actor] == SetChoices(Latest(events), kind)[e.actor] == e.value)
      && (e.option == "" && e.value == "" ==> Choices(Latest(events))[e.actor] == e.action)
      && (e.option == "" && e.value == "" && e.action != "" ==> SetChoices(Latest(events), kind)[e.actor] == e.action)
      && (e.option == "" && e.value == "" && e.action == "" ==> SetChoices(Latest(events), kind)[e.actor] == kind)
    decreases |events|
  {
    var n := |events| - 1;
    if i < n {
      assert events[n].actor != events[i].actor;
      LastAnswerCounts(events[..n], i, kind);
    }
  }

  /** A value's count is the number of actors whose last answer it is. */
  lemma CountsAreOfActors(events: seq<Event>, kind: string, v: string)
    ensures var choices := SetChoices(Latest(events), kind);
      choices.Keys == Actors(events) && CountOf(Tally(choices), v) == |set a | a in Actors(events) && choices[a] == v|
  {
    LatestNamesActors(events);
    var choices := SetChoices(Latest(events), kind);
    CountIs(choices, v);
    assert Choosers(choices, v) == set a | a in Actors(events) && choices[a] == v;
  }

  /**
   * A request is approved exactly when as many approve as the quorum asks for, or, without one, as the largest of the
   * configured number, the number of respondents and one; under veto one rejection decides.
   */
  lemma ApprovalAnswers(events: seq<Event>, p: Policy)
    ensures var yes, no, n := |Approvers(Latest(events))|, |Rejecters(Latest(events))|, |Actors(events)|;
      && (p.quorum > 0 ==> Quorum(p, Latest(events)) == p.quorum)
      && (p.quorum <= 0 ==> var q := Quorum(p, Latest(events)); q >= p.configured && q >= n && q >= 1 && q in {p.configured, n, 1})
      && (!p.closeOnResponse ==>
            && (Status(p, events) == "approved" <==>
                  !(p.veto && no > 0) && if p.quorum > 0 then yes >= p.quorum else yes >= p.configured && yes >= n && yes >= 1)
            && (Status(p, events) == "rejected" <==> p.veto && no > 0))
      && Status(p, events) in {"approved", "rejected", "pending"}
  {
    LatestNamesActors(events);
    assert |Latest(events)| == |Latest(events).Keys|;
    StatusSays(p, events);
    assert "pending"[0] == 'p' && "rejected"[0] == 'r' && "approved"[0] == 'a';
  }

  /** Where a response closes the request its last answer decides; nothing is decided before the first. */
  lemma LastResponseDecides(events: seq<Event>, e: Event, p: Policy)
    ensures Status(p, []) == "pending"
    ensures var answer := if Value(e) == "modify" then "pending" else if Negative(Value(e)) then "rejected" else "approved";
      p.closeOnResponse ==> Status(p, events + [e]) == answer
  {
    ApprovalAnswers([], p);
    assert Approvers(Latest([])) == {} && Actors([]) == {};
  }

  // ---- Checklists ----

  const NUL: char := '\0'

  function ItemOf(e: Event): string { if e.item != "" then e.item else Value(e) }

  predicate Done(e: Event) { if e.completed.Some? then e.completed.value else Positive(e.action) }

  function Key(actor: string, item: string): string { actor + [NUL] + item }

  predicate Plain(actor: string) { NUL !in actor }

  /** The part of a key behind its first NUL. */
  function ItemIn(key: string): string { if key == "" then "" else if key[0] == NUL then key[1..] else ItemIn(key[1..]) }

  /** A key gives back its item exactly when the actor's id has no NUL. */
  lemma {:induction false} KeyDecodes(actor: string, item: string)
    ensures ItemIn(Key(actor, item)) == item <==> Plain(actor)
    ensures |ItemIn(Key(actor, item))| >= |item|
  {
    var key := Key(actor, item);
    if actor == "" {
      assert key[1..] == item;
    } else if actor[0] == NUL {
      assert |key[1..]| > |item|;
    } else {
      assert key[1..] == Key(actor[1..], item);
      KeyDecodes(actor[1..], item);
      assert NUL in actor <==> NUL in actor[1..] by { assert actor == [actor[0]] + actor[1..]; }
    }
  }

  /** Among actors without NUL no two pairs share a key. */
  lemma KeysAreOwn(a: string, i: string, b: string, j: string)
    requires Plain(a) && Plain(b) && Key(a, i) == Key(b, j)
    ensures a == b && i == j
  {
    KeyDecodes(a, i);
    KeyDecodes(b, j);
    assert |a| == |b|;
    assert Key(a, i)[..|a|] == a && Key(b, j)[..|b|] == b;
  }

  /** With a NUL two actors can share one. */
  lemma KeysCollide()
    ensures Key("a", "b" + [NUL] + "c") == Key("a" + [NUL] + "b", "c")
  {
  }

  function LatestByKey(events: seq<Event>): map<string, Event>
    decreases |events|
  {
    if events == [] then map[] else
      var e := events[|events| - 1];
      LatestByKey(events[..|events| - 1])[Key(e.actor, ItemOf(e)) := e]
  }

  /** The latest event of each actor on each item. */
  function LatestByPair(events: seq<Event>): map<(string, string), Event>
    decreases |events|
  {
    if events == [] then map[] else
      var e := events[|events| - 1];
      LatestByPair(events[..|events| - 1])[(e.actor, ItemOf(e)) := e]
  }

  predicate AllPlain(events: seq<Event>) { forall i :: 0 <= i < |events| ==> Plain(events[i].actor) }

  /** For actors without NUL the string keys say what the pairs say. */
  lemma {:induction false} KeysStandForPairs(events: seq<Event>)
    requires AllPlain(events)
    ensures forall a, i :: (a, i) in LatestByPair(events) ==>
      Plain(a) && Key(a, i) in LatestByKey(events) && LatestByKey(events)[Key(a, i)] == LatestByPair(events)[(a, i)]
    ensures forall k :: k in LatestByKey(events) ==>
      var e := LatestByKey(events)[k]; k == Key(e.actor, ItemOf(e)) && (e.actor, ItemOf(e)) in LatestByPair(events)
    decreases |events|
  {
    if events != [] {
      var n := |events| - 1;
      var e := events[n];
      KeysStandForPairs(events[..n]);
      forall a, i | (a, i) in LatestByPair(events)
        ensures Plain(a) && Key(a, i) in LatestByKey(events) && LatestByKey(events)[Key(a, i)] == LatestByPair(events)[(a, i)]
      {
        if Key(a, i) == Key(e.actor, ItemOf(e)) && (a, i) in LatestByPair(events[..n]) { KeysAreOwn(a, i, e.actor, ItemOf(e)); }
      }
    }
  }

  /** The items ticked off, by actor and item. */
  function Ticks(latest: map<(string, string), Event>): map<(string, string), string> {
    map k | k in latest && Done(latest[k]) :: k.1
  }

  function KeyTicks(latest: map<string, Event>): map<string, string> {
    map k | k in latest && Done(latest[k]) :: ItemIn(k)
  }

  /** `f` pairs off the entries of two maps with equal values. */
  ghost predicate Pairs<K(!new), L(!new)>(a: map<K, string>, b: map<L, string>, f: map<K, L>) {
    && f.Keys == a.Keys && f.Values == b.Keys
    && (forall k, l :: k in f && l in f && f[k] == f[l] ==> k == l)
    && (forall k :: k in a ==> f[k] in b && a[k] == b[f[k]])
  }

  lemma PairsWithout<K(!new), L(!new)>(a: map<K, string>, b: map<L, string>, f: map<K, L>, k: K)
    requires Pairs(a, b, f) && k in a
    ensures Pairs(a - {k}, b - {f[k]}, f - {k})
  {
    var b', f' := b - {f[k]}, f - {k};
    assert f'.Values == b'.Keys by {
      forall x | x in b' ensures x in f'.Values { var k2 :| k2 in f && f[k2] == x; assert f'[k2] == x; }
    }
  }

  lemma {:induction false} PairedTally<K(!new), L(!new)>(a: map<K, string>, b: map<L, string>, f: map<K, L>)
    requires Pairs(a, b, f)
    ensures Tally(a) == Tally(b)
    decreases |a|
  {
    if a == map[] {
      assert f == map[] && f.Values == {};
      assert b == map[];
    } else {
      var k :| k in a;
      PairsWithout(a, b, f, k);
      PairedTally(a - {k}, b - {f[k]}, f - {k});
      EqualTallies(a, b, k, f[k]);
    }
  }

  lemma EqualTallies<K(!new), L(!new)>(a: map<K, string>, b: map<L, string>, k: K, l: L)
    requires k in a && l in b && a[k] == b[l] && Tally(a - {k}) == Tally(b - {l})
    ensures Tally(a) == Tally(b)
  {
    TallyWithout(a, k);
    TallyWithout(b, l);
  }

  lemma TallyWithout<K>(a: map<K, string>, k: K)
    requires k in a
    ensures Tally(a) == Tally(a - {k})[a[k] := CountOf(Tally(a - {k}), a[k]) + 1]
  {
    TallyOneMore(a - {k}, k, a[k]);
    assert (a - {k})[k := a[k]] == a;
  }

  /** Each item counts the actors whose latest word on it is that it is done. */
  lemma ChecklistCounts(events: seq<Event>)
    requires AllPlain(events)
    ensures Tally(KeyTicks(LatestByKey(events))) == Tally(Ticks(LatestByPair(events)))
  {
    KeysStandForPairs(events);
    var pairs, keys := LatestByPair(events), LatestByKey(events);
    var a, b := Ticks(pairs), KeyTicks(keys);
    var f := map k | k in a :: Key(k.0, k.1);
    forall k | k in a ensures f[k] in b && a[k] == b[f[k]] {
      assert (k.0, k.1) == k;
      KeyDecodes(k.0, k.1);
    }
    forall k, l | k in f && l in f && f[k] == f[l] ensures k == l {
      assert (k.0, k.1) in pairs && (l.0, l.1) in pairs;
      KeysAreOwn(k.0, k.1, l.0, l.1);
    }
    assert f.Values == b.Keys by {
      forall x | x in b ensures x in f.Values {
        var e := keys[x];
        var pair := (e.actor, ItemOf(e));
        assert pair in pairs && pairs[pair] == e;
        assert f[pair] == x;
      }
    }
    PairedTally(a, b, f);
  }

  /** An actor's last event on an item ticks it off when it says so, or says nothing and its action is positive. */
  lemma {:induction false} LastWordTicks(events: seq<Event>, i: nat, item: string)
    requires i < |events|
    requires var e := events[i]; if e.item != "" then item == e.item else item == Value(e)
    requires forall j :: i < j < |events| ==> events[j].actor != events[i].actor || ItemOf(events[j]) != item
    ensures var e := events[i];
      (e.actor, item) in LatestByPair(events)
      && ((e.actor, item) in Ticks(LatestByPair(events)) <==> if e.completed.Some? then e.completed.value else Positive(e.action))
    decreases |events|
  {
    LatestOfPair(events, i);
  }

  lemma {:induction false} LatestOfPair(events: seq<Event>, i: nat)
    requires i < |events|
    requires forall j :: i < j < |events| ==> events[j].actor != events[i].actor || ItemOf(events[j]) != ItemOf(events[i])
    ensures var e := events[i]; (e.actor, ItemOf(e)) in LatestByPair(events) && LatestByPair(events)[(e.actor, ItemOf(e))] == e
    decreases |events|
  {
    var n := |events| - 1;
    if i < n {
      assert events[n].actor != events[i].actor || ItemOf(events[n]) != ItemOf(events[i]);
      LatestOfPair(events[..n], i);
    }
  }

  lemma {:induction false} LogHasPair(events: seq<Event>, e: Event)
    requires e in events
    ensures (e.actor, ItemOf(e)) in LatestByPair(events)
    decreases |events|
  {
    var n := |events| - 1;
    if e != events[n] {
      assert e in events[..n];
      LogHasPair(events[..n], e);
    }
  }

  lemma {:induction false} KeysComeFromLog(events: seq<Event>)
    ensures forall k :: k in LatestByKey(events) ==> LatestByKey(events)[k] in events
    decreases |events|
  {
    if events != [] {
      var n := |events| - 1;
      KeysComeFromLog(events[..n]);
      assert forall e :: e in events[..n] ==> e in events;
    }
  }

  function KeyActors(latest: map<string, Event>): set<string> { set k | k in latest :: latest[k].actor }

  /** Without NUL every actor in the log stays among those of the keys. */
  lemma ChecklistActors(events: seq<Event>)
    requires AllPlain(events)
    ensures KeyActors(LatestByKey(events)) == Actors(events)
  {
    KeysStandForPairs(events);
    KeysComeFromLog(events);
    var keys := LatestByKey(events);
    forall a | a in Actors(events) ensures a in KeyActors(keys) {
      var e :| e in events && e.actor == a;
      LogHasPair(events, e);
      var item := ItemOf(e);
      assert (a, item) in LatestByPair(events);
      var found := keys[Key(a, item)];
      assert Key(a, item) == Key(found.actor, ItemOf(found));
      assert found in events && Plain(found.actor);
      KeysAreOwn(a, item, found.actor, ItemOf(found));
    }
  }

  method ReduceChecklist(events: seq<Event>, configured: int) returns (r: Reduction)
    ensures r.counts == Tally(KeyTicks(LatestByKey(events)))
    ensures AllPlain(events) ==>
      r.counts == Tally(Ticks(LatestByPair(events))) && r.responded == |Actors(events)|
    ensures r.responded == |KeyActors(LatestByKey(events))|
    ensures r.total == Total(configured, r.responded) && r.status == "active" && !r.closed
  {
    var latest: map<string, Event> := map[];
    for i := 0 to |events|
      invariant latest == LatestByKey(events[..i])
    {
      assert events[..i + 1][..i] == events[..i];
      latest := latest[Key(events[i].actor, ItemOf(events[i])) := events[i]];
    }
    assert events[..|events|] == events;
    var counts := CountChoices(KeyTicks(latest));
    var actors := KeyActors(latest);
    if AllPlain(events) {
      ChecklistCounts(events);
      ChecklistActors(events);
    }
    r := Reduction(counts, |actors|, Total(configured, |actors|), "active", false);
  }

  // ---- State machines ----

  predicate Allowed(transitions: map<string, seq<string>>, from: string, to: string) {
    transitions == map[] || (from in transitions && to in transitions[from])
  }

  /** The states that the log names, after the initial one; events without a value name none. */
  function Named(initial: string, events: seq<Event>): (r: seq<string>)
    ensures r != []
    decreases |events|
  {
    if events == [] then [initial] else
      var v := Value(events[|events| - 1]);
      Named(initial, events[..|events| - 1]) + if v == "" then [] else [v]
  }

  predicate Lawful(transitions: map<string, seq<string>>, states: seq<string>) {
    forall i :: 0 <= i < |states| - 1 ==> Allowed(transitions, states[i], states[i + 1])
  }

  const CLOSED_STATES: set<string> := {"closed", "completed", "cancelled"}

  /** Succeeds exactly when every step between named states is allowed; the status is then the last of them. */
  method ReduceStateMachine(events: seq<Event>, initial: string, transitions: map<string, seq<string>>, configured: int)
    returns (r: Option<Reduction>)
    ensures var states := Named(if initial == "" then "open" else initial, events);
      && (r.Some? <==> Lawful(transitions, states))
      && (r.Some? ==> var last := states[|states| - 1];
            r.value == Reduction(map[], |events|, Total(configured, |events|), last, last in CLOSED_STATES))
  {
    var current := FollowTransitions(events, if initial == "" then "open" else initial, transitions);
    if !current.Some? { return None; }
    r := Some(Reduction(map[], |events|, Total(configured, |events|), current.value, current.value in CLOSED_STATES));
  }

  /** The walk over the log from the state `start`. */
  method FollowTransitions(events: seq<Event>, start: string, transitions: map<string, seq<string>>) returns (r: Option<string>)
    ensures r.Some? <==> Lawful(transitions, Named(start, events))
    ensures r.Some? ==> r.value == Named(start, events)[|Named(start, events)| - 1]
  {
    var current := start;
    ghost var states := [start];
    for i := 0 to |events|
      invariant states == Named(start, events[..i]) && states != []
      invariant Lawful(transitions, states) && current == states[|states| - 1]
    {
      assert events[..i + 1][..i] == events[..i];
      var next := Value(events[i]);
      if next == "" { continue; }
      ghost var more := states + [next];
      assert more[|states| - 1] == current && more[|states|] == next;
      if transitions != map[] && !(current in transitions && next in transitions[current]) {
        NamedGrows(start, events, i + 1);
        UnlawfulStays(transitions, more, Named(start, events), |states| - 1);
        return None;
      }
      LawfulSnoc(transitions, states, next);
      current := next;
      states := more;
    }
    assert events[..|events|] == events;
    r := Some(current);
  }

  /** One more event: without a value it changes nothing, else its value must be allowed after the last state and is the next. */
  lemma OneMoreState(events: seq<Event>, e: Event, initial: string, transitions: map<string, seq<string>>)
    ensures Named(initial, []) == [initial] && Lawful(transitions, [initial])
    ensures var so, now := Named(initial, events), Named(initial, events + [e]);
      var v := if e.option != "" then e.option else if e.value != "" then e.value else e.action;
      var last := so[|so| - 1];
      && now[|now| - 1] == (if v == "" then last else v)
      && (Lawful(transitions, now) <==>
            (Lawful(transitions, so) && (v == "" || transitions == map[] || (last in transitions && v in transitions[last]))))
  {
    var so, now := Named(initial, events), Named(initial, events + [e]);
    assert (events + [e])[..|events|] == events;
    var v := Value(e);
    if v != "" {
      assert now == so + [v] && now[|so| - 1] == so[|so| - 1] && now[|so|] == v;
      if Lawful(transitions, so) && Allowed(transitions, so[|so| - 1], v) { LawfulSnoc(transitions, so, v); }
      if Lawful(transitions, now) {
        LawfulPrefix(transitions, so, now);
        assert Allowed(transitions, now[|so| - 1], now[|so|]);
      }
    } else {
      assert now == so;
    }
  }

  lemma LawfulPrefix(transitions: map<string, seq<string>>, some: seq<string>, all: seq<string>)
    requires some <= all && Lawful(transitions, all)
    ensures Lawful(transitions, some)
  {
    forall i | 0 <= i < |some| - 1 ensures Allowed(transitions, some[i], some[i + 1]) {
      assert all[i] == some[i] && all[i + 1] == some[i + 1];
    }
  }

  lemma UnlawfulStays(transitions: map<string, seq<string>>, some: seq<string>, all: seq<string>, i: nat)
    requires some <= all && i + 1 < |some| && !Allowed(transitions, some[i], some[i + 1])
    ensures !Lawful(transitions, all)
  {
    assert all[i] == some[i] && all[i + 1] == some[i + 1];
  }

  lemma LawfulSnoc(transitions: map<string, seq<string>>, states: seq<string>, next: string)
    requires states != [] && Lawful(transitions, states) && Allowed(transitions, states[|states| - 1], next)
    ensures Lawful(transitions, states + [next])
  {
    var more := states + [next];
    forall i | 0 <= i < |more| - 1 ensures Allowed(transitions, more[i], more[i + 1]) {
      if i + 1 < |states| { assert Allowed(transitions, states[i], states[i + 1]); }
    }
  }

  lemma {:induction false} NamedGrows(initial: string, events: seq<Event>, i: nat)
    requires i <= |events|
    ensures Named(initial, events[..i]) <= Named(initial, events)
    decreases |events|
  {
    if i == |events| {
      assert events[..i] == events;
    } else {
      assert events[..|events| - 1][..i] == events[..i];
      NamedGrows(initial, events[..|events| - 1], i);
    }
  }
}
