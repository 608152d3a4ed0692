/** What every step of the scheduler keeps. */
module SchedulerInvariants {
  import opened Common
  import opened SchedulerModel
  import Ingress

  /** The bounds that config.go enforces at start-up. */
  predicate ValidLimits(l: Limits) {
    1 <= l.slots <= 32 && l.slots <= l.maxPending <= 10000 && 1 <= l.maxConversationPending <= l.maxPending
  }

  predicate Live(a: Actor) { !a.stage.Leaving? }

  // ---- Queues and goroutines ----

  ghost predicate QueueOwned(s: State, c: string)
    requires c in s.queues
  {
    && s.queues[c].running
    && s.queues[c].actor in s.actors
    && s.actors[s.queues[c].actor].conversationID == c
    && Live(s.actors[s.queues[c].actor])
  }

  ghost predicate ActorWired(s: State, a: nat)
    requires a in s.actors
  {
    && a < s.next
    && (Live(s.actors[a]) ==>
      var c := s.actors[a].conversationID;
      c in s.queues && s.queues[c].actor == a
      && (s.actors[a].stage.Running? ==>
           var t := s.actors[a].stage.turn;
           s.queues[c].current == Some(t.serial) && t.conversationID == c && t.serial in s.contexts && t in s.log.started)
      && (!s.actors[a].stage.Running? ==> s.queues[c].current == None))
  }

  /** Mapped queues and live goroutines are in one-to-one correspondence. */
  ghost predicate Wired(s: State) {
    && (forall c :: c in s.queues ==> QueueOwned(s, c))
    && (forall a :: a in s.actors ==> ActorWired(s, a))
  }

  // ---- Queue contents ----

  /** Stops first, then ordinary turns. */
  ghost predicate StopsFirst(items: seq<Turn>) {
    forall i, j :: 0 <= i < j < |items| && items[j].priority ==> items[i].priority
  }

  ghost predicate QueueShaped(q: Queue, c: string, limits: Limits) {
    && StopsFirst(q.items)
    && (q.controlQueued ==> q.items != [] && q.items[0].priority)
    && |q.items| <= limits.maxConversationPending + (if q.controlQueued then 1 else 0)
    && (forall t :: t in q.items ==> t.conversationID == c)
  }

  ghost predicate Shaped(s: State, limits: Limits) {
    forall c :: c in s.queues ==> QueueShaped(s.queues[c], c, limits)
  }

  // ---- Counters ----

  ghost function Lengths(queues: map<string, Queue>): map<string, nat> {
    map c | c in queues :: |queues[c].items|
  }

  ghost function Controls(queues: map<string, Queue>): map<string, nat> {
    map c | c in queues :: if queues[c].controlQueued then 1 else 0
  }

  function SlotUse(g: Stage): nat {
    if g.Between? || g.Running? || (g.Leaving? && g.holdsSlot) then 1 else 0
  }

  ghost function SlotUses(actors: map<nat, Actor>): map<nat, nat> {
    map a | a in actors :: SlotUse(actors[a].stage)
  }

  ghost predicate Counted(s: State, limits: Limits) {
    && s.pending == Sum(Lengths(s.queues))
    && s.pending <= limits.maxPending + Sum(Controls(s.queues))
    && s.slotsUsed == Sum(SlotUses(s.actors)) <= limits.slots
  }

  // ---- History ----

  function Normals(ts: seq<Turn>, c: string): seq<Turn> {
    if ts == [] then []
    else Normals(ts[..|ts| - 1], c)
         + (if !ts[|ts| - 1].priority && ts[|ts| - 1].conversationID == c then [ts[|ts| - 1]] else [])
  }

  function ItemsOf(s: State, c: string): seq<Turn> {
    if c in s.queues then s.queues[c].items else []
  }

  predicate Queued(s: State, t: Turn) {
    t in ItemsOf(s, t.conversationID)
  }

  ghost predicate Distinct(ts: seq<Turn>) {
    forall i, j :: 0 <= i < j < |ts| ==> ts[i] != ts[j]
  }

  ghost predicate Increasing(ts: seq<Turn>, bound: nat) {
    && (forall i, j :: 0 <= i < j < |ts| ==> ts[i].serial < ts[j].serial)
    && (forall i :: 0 <= i < |ts| ==> ts[i].serial < bound)
  }

  /** Each accepted turn is started, discarded or queued, exactly one of them and exactly once. */
  ghost predicate Partitioned(s: State) {
    && (forall t :: t in s.log.accepted <==> t in s.log.started || t in s.log.discarded || Queued(s, t))
    && (forall t :: !(t in s.log.started && t in s.log.discarded))
    && (forall t :: Queued(s, t) ==> t !in s.log.started && t !in s.log.discarded)
    && Distinct(s.log.started) && Distinct(s.log.discarded)
    && (forall c :: c in s.queues ==> Distinct(s.queues[c].items))
  }

  /** The ordinary turns of a conversation leave its queue in the order of their acceptance. */
  ghost predicate InOrder(s: State) { forall c :: OrderedIn(s, c) }

  ghost predicate OrderedIn(s: State, c: string) {
    Normals(s.log.accepted, c) == Normals(s.log.started, c) + Normals(s.log.discarded, c) + Normals(ItemsOf(s, c), c)
  }

  ghost predicate Recorded(s: State) {
    && Increasing(s.log.accepted, s.next)
    && Partitioned(s)
    && InOrder(s)
    && (s.lifecycleDone ==> !s.accepting)
    && (s.log.discarded != [] ==> s.lifecycleDone)
  }

  // ---- Claims ----

  function Claimants(ts: seq<Turn>): seq<Turn> {
    if ts == [] then []
    else Claimants(ts[..|ts| - 1]) + (if ts[|ts| - 1].retryable then [] else [ts[|ts| - 1]])
  }

  ghost predicate Matched(grants: Ingress.Grants, claimants: seq<Turn>) {
    |grants| == |claimants|
    && forall i :: 0 <= i < |grants| ==> grants[i].0 == (claimants[i].source, claimants[i].eventID)
  }

  /** The grants are exactly those of the accepted turns that claim; they are spaced if no claim returns. */
  ghost predicate DeduplicatedLog(log: History, ledger: Ingress.Ledger, retention: nat) {
    && Matched(log.grants, Claimants(log.accepted))
    && (Ingress.NoneComesBack(log.claims, retention) ==>
          Ingress.AllKept(ledger, retention, log.grants, log.claims) && Ingress.Spaced(retention, log.grants))
  }

  ghost predicate Deduplicated(s: State, limits: Limits) {
    DeduplicatedLog(s.log, s.ledger, limits.retention)
  }

  ghost predicate Inv(s: State, limits: Limits) {
    Wired(s) && Shaped(s, limits) && Counted(s, limits) && Recorded(s) && Deduplicated(s, limits)
  }

  lemma PutLength(queues: map<string, Queue>, c: string, q: Queue)
    ensures Sum(Lengths(queues[c := q]))
      == Sum(Lengths(queues)) + |q.items| - (if c in queues then |queues[c].items| else 0)
  {
    SumUpdate(Lengths(queues), c, |q.items|);
    assert Lengths(queues[c := q]) == Lengths(queues)[c := |q.items|];
  }

  lemma PutControl(queues: map<string, Queue>, c: string, q: Queue)
    ensures Sum(Controls(queues[c := q]))
      == Sum(Controls(queues)) + (if q.controlQueued then 1 else 0)
         - (if c in queues && queues[c].controlQueued then 1 else 0)
  {
    var k := if q.controlQueued then 1 else 0;
    SumUpdate(Controls(queues), c, k);
    assert Controls(queues[c := q]) == Controls(queues)[c := k];
  }

  lemma RemoveQueue(queues: map<string, Queue>, c: string)
    requires c in queues
    ensures Sum(Lengths(queues - {c})) == Sum(Lengths(queues)) - |queues[c].items|
    ensures Sum(Controls(queues - {c})) == Sum(Controls(queues)) - (if queues[c].controlQueued then 1 else 0)
  {
    SumRemove(Lengths(queues), c);
    assert Lengths(queues - {c}) == Lengths(queues) - {c};
    SumRemove(Controls(queues), c);
    assert Controls(queues - {c}) == Controls(queues) - {c};
  }

  lemma PutActor(actors: map<nat, Actor>, a: nat, g: Actor)
    ensures Sum(SlotUses(actors[a := g]))
      == Sum(SlotUses(actors)) + SlotUse(g.stage) - (if a in actors then SlotUse(actors[a].stage) else 0)
  {
    SumUpdate(SlotUses(actors), a, SlotUse(g.stage));
    assert SlotUses(actors[a := g]) == SlotUses(actors)[a := SlotUse(g.stage)];
  }

  lemma RemoveActor(actors: map<nat, Actor>, a: nat)
    requires a in actors
    ensures Sum(SlotUses(actors - {a})) == Sum(SlotUses(actors)) - SlotUse(actors[a].stage)
  {
    SumRemove(SlotUses(actors), a);
    assert SlotUses(actors - {a}) == SlotUses(actors) - {a};
  }

  // ---- Enqueue ----

  lemma EnqueueKeepsWired(s: State, limits: Limits, r: Request)
    requires Wired(s) && Admission(s, limits, r) == Accepted
    ensures Wired(Enqueue(s, r))
  {
  }

  lemma EnqueueKeepsShaped(s: State, limits: Limits, r: Request)
    requires Shaped(s, limits) && Admission(s, limits, r) == Accepted && ValidLimits(limits)
    ensures Shaped(Enqueue(s, r), limits)
  {
  }

  lemma EnqueueKeepsCounted(s: State, limits: Limits, r: Request)
    requires Wired(s) && Shaped(s, limits) && Counted(s, limits) && Admission(s, limits, r) == Accepted
    ensures Counted(Enqueue(s, r), limits)
  {
    var s', c := Enqueue(s, r), r.conversationID;
    PutLength(s.queues, c, s'.queues[c]);
    PutControl(s.queues, c, s'.queues[c]);
    if s'.actors != s.actors {
      assert forall a :: a in s.actors && ActorWired(s, a) ==> a < s.next;
      PutActor(s.actors, s.next, Actor(c, Waiting));
    }
  }

  lemma DistinctWith(t: Turn, ts: seq<Turn>)
    requires Distinct(ts) && t !in ts
    ensures Distinct([t] + ts) && Distinct(ts + [t])
  {
  }

  lemma EnqueueItems(s: State, r: Request)
    ensures var c, t := r.conversationID, NewTurn(s, r);
      ItemsOf(Enqueue(s, r), c) == (if r.priority then [t] + ItemsOf(s, c) else ItemsOf(s, c) + [t])
      && (forall x :: x != c ==> ItemsOf(Enqueue(s, r), x) == ItemsOf(s, x))
  {
  }

  /** The new turn, and no other, joins what is queued. */
  lemma EnqueueQueues(s: State, r: Request, x: Turn)
    ensures Queued(Enqueue(s, r), x) <==> Queued(s, x) || x == NewTurn(s, r)
  {
    EnqueueItems(s, r);
  }

  lemma EnqueueKeepsDistinct(s: State, r: Request, x: string)
    requires !Queued(s, NewTurn(s, r)) && Distinct(ItemsOf(s, x))
    ensures Distinct(ItemsOf(Enqueue(s, r), x))
  {
    EnqueueItems(s, r);
    if x == r.conversationID { DistinctWith(NewTurn(s, r), ItemsOf(s, x)); }
  }

  lemma EnqueueKeepsPartitioned(s: State, r: Request)
    requires Increasing(s.log.accepted, s.next) && Partitioned(s)
    ensures Partitioned(Enqueue(s, r))
  {
    var s', t := Enqueue(s, r), NewTurn(s, r);
    assert t !in s.log.accepted;
    forall x ensures Queued(s', x) <==> Queued(s, x) || x == t { EnqueueQueues(s, r, x); }
    forall x | x in s'.queues ensures Distinct(s'.queues[x].items) {
      assert Distinct(ItemsOf(s, x));
      EnqueueKeepsDistinct(s, r, x);
    }
  }

  lemma EnqueueKeepsOrderIn(s: State, r: Request, x: string)
    requires OrderedIn(s, x)
    ensures OrderedIn(Enqueue(s, r), x)
  {
    var t := NewTurn(s, r);
    EnqueueAddsNormal(s, r, x);
    Regroup(Normals(s.log.started, x) + Normals(s.log.discarded, x), Normals(ItemsOf(s, x), x),
            if !t.priority && t.conversationID == x then [t] else []);
  }

  lemma Regroup<T>(a: seq<T>, b: seq<T>, c: seq<T>)
    ensures a + b + c == a + (b + c)
  {
  }

  lemma EnqueueKeepsOrder(s: State, limits: Limits, r: Request)
    requires InOrder(s) && Admission(s, limits, r) == Accepted
    ensures InOrder(Enqueue(s, r))
  {
    forall x ensures OrderedIn(Enqueue(s, r), x) { EnqueueKeepsOrderIn(s, r, x); }
  }

  /** A new normal turn comes last both in what was accepted and in its queue. */
  lemma EnqueueAddsNormal(s: State, r: Request, x: string)
    ensures var s', t := Enqueue(s, r), NewTurn(s, r);
      var more := if !t.priority && t.conversationID == x then [t] else [];
      && Normals(s'.log.accepted, x) == Normals(s.log.accepted, x) + more
      && Normals(ItemsOf(s', x), x) == Normals(ItemsOf(s, x), x) + more
  {
    var t, was := NewTurn(s, r), ItemsOf(s, x);
    EnqueueItems(s, r);
    NormalsSnoc(s.log.accepted, t, x);
    if x == r.conversationID {
      if t.priority { NormalsSkipStop(t, was, x); } else { NormalsSnoc(was, t, x); }
    }
  }

  lemma NormalsSnoc(ts: seq<Turn>, t: Turn, c: string)
    ensures Normals(ts + [t], c) == Normals(ts, c) + if !t.priority && t.conversationID == c then [t] else []
  {
    assert (ts + [t])[..|ts|] == ts;
  }

  lemma EnqueueKeepsRecorded(s: State, limits: Limits, r: Request)
    requires Shaped(s, limits) && Recorded(s) && Admission(s, limits, r) == Accepted
    ensures Recorded(Enqueue(s, r))
  {
    EnqueueKeepsPartitioned(s, r);
    EnqueueKeepsOrder(s, limits, r);
  }

  lemma {:induction false} NormalsSkipStop(t: Turn, ts: seq<Turn>, c: string)
    requires t.priority
    ensures Normals([t] + ts, c) == Normals(ts, c)
  {
    if ts != [] {
      NormalsSkipStop(t, ts[..|ts| - 1], c);
      assert ([t] + ts)[..|ts|] == [t] + ts[..|ts| - 1];
    } else {
      assert [t] + ts == [t] && [t][..0] == [];
    }
  }

  lemma {:induction false} NormalsConcat(xs: seq<Turn>, ys: seq<Turn>, c: string)
    ensures Normals(xs + ys, c) == Normals(xs, c) + Normals(ys, c)
  {
    if ys == [] {
      assert xs + ys == xs;
    } else {
      NormalsConcat(xs, ys[..|ys| - 1], c);
      assert (xs + ys)[..|xs + ys| - 1] == xs + ys[..|ys| - 1];
    }
  }
}
