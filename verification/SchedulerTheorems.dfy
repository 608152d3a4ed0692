/** What the scheduler guarantees over whole runs: capacity, order, stop causes, conservation and drain. */
module SchedulerTheorems {
  import opened Common
  import opened SchedulerModel
  import opened SchedulerInvariants
  import opened SchedulerSteps
  import Ingress

  // ---- Capacity ----

  /** The caps hold up to one extra turn for each queue whose stop has bypassed them. */
  lemma CapacityHolds(s: State, limits: Limits)
    requires ValidLimits(limits) && Reachable(limits, s)
    ensures s.pending == Sum(Lengths(s.queues)) <= limits.maxPending + Sum(Controls(s.queues))
    ensures forall c :: c in s.queues ==>
      |s.queues[c].items| <= limits.maxConversationPending + (if s.queues[c].controlQueued then 1 else 0)
    ensures forall c :: c in s.queues && s.queues[c].controlQueued ==> s.queues[c].items != [] && s.queues[c].items[0].priority
    ensures forall c :: c in s.queues ==> StopsFirst(s.queues[c].items)
    ensures s.slotsUsed <= limits.slots
  {
    ReachableInv(s, limits);
    forall c | c in s.queues ensures QueueShaped(s.queues[c], c, limits) {}
  }

  /** A conversation has a queue exactly while it has a live goroutine, and never two of those. */
  lemma OneActorPerConversation(s: State, limits: Limits, a: nat)
    requires ValidLimits(limits) && Reachable(limits, s) && a in s.actors && Live(s.actors[a])
    ensures s.actors[a].conversationID in s.queues
    ensures forall b :: b in s.actors && Live(s.actors[b]) && s.actors[b].conversationID == s.actors[a].conversationID ==> b == a
    ensures forall c :: c in s.queues ==> exists b :: b in s.actors && Live(s.actors[b]) && s.actors[b].conversationID == c
  {
    ReachableInv(s, limits);
    assert ActorWired(s, a);
    forall b | b in s.actors && Live(s.actors[b]) && s.actors[b].conversationID == s.actors[a].conversationID ensures b == a {
      assert ActorWired(s, b);
    }
    forall c | c in s.queues ensures exists b :: b in s.actors && Live(s.actors[b]) && s.actors[b].conversationID == c {
      assert QueueOwned(s, c);
    }
  }

  // ---- Order ----

  /** The ordinary turns started in a conversation are the first ones accepted there, in that order. */
  lemma NormalTurnsStartInOrder(s: State, limits: Limits, c: string)
    requires ValidLimits(limits) && Reachable(limits, s)
    ensures Normals(s.log.started, c) <= Normals(s.log.accepted, c)
    ensures Normals(s.log.accepted, c) == Normals(s.log.started, c) + Normals(s.log.discarded, c) + Normals(ItemsOf(s, c), c)
  {
    ReachableInv(s, limits);
    assert OrderedIn(s, c);
  }

  lemma NormalHeadMeansNoStops(items: seq<Turn>)
    requires StopsFirst(items) && items != [] && !items[0].priority
    ensures forall t :: t in items ==> !t.priority
  {
  }

  /** When an ordinary turn starts, every stop accepted in its conversation has already started. */
  lemma StopsOvertakeNormalTurns(s: State, limits: Limits, a: nat, stop: Turn)
    requires ValidLimits(limits) && Reachable(limits, s) && Enabled(s, limits, NextTurn(a))
    requires var s' := NextTurnStep(s, a);
      RunningActor(s', a) && !s'.actors[a].stage.turn.priority
    requires stop in s.log.accepted && stop.priority && stop.conversationID == s.actors[a].conversationID
    ensures stop in s.log.started
  {
    ReachableInv(s, limits);
    var c := s.actors[a].conversationID;
    assert QueueShaped(s.queues[c], c, limits);
    NormalHeadMeansNoStops(s.queues[c].items);
    assert Queued(s, stop) <==> stop in s.queues[c].items;
  }

  // ---- Causes ----

  ghost predicate Finished(s: State, t: Turn) {
    exists i :: 0 <= i < |s.log.finished| && s.log.finished[i].0 == t
  }

  /** Contexts belong to running turns, and a started turn is either running or finished. */
  ghost predicate Tracked(s: State) {
    && (forall k :: k in s.contexts ==> exists a :: RunningActor(s, a) && s.actors[a].stage.turn.serial == k)
    && (forall t :: t in s.log.started ==> (t.serial in s.contexts <==> !Finished(s, t)))
    && (forall i :: 0 <= i < |s.log.finished| ==> s.log.finished[i].0 in s.log.started)
  }

  lemma SameSerialSameTurn(s: State, t: Turn, u: Turn)
    requires Increasing(s.log.accepted, s.next) && t in s.log.accepted && u in s.log.accepted && t.serial == u.serial
    ensures t == u
  {
  }

  lemma FinishedSnoc(s: State, s': State, t: Turn, x: Option<Cause>)
    requires s'.log.finished == s.log.finished + [(t, x)]
    ensures forall u :: Finished(s', u) <==> Finished(s, u) || u == t
  {
    forall u | Finished(s, u) || u == t ensures Finished(s', u) {
      if u == t { assert s'.log.finished[|s.log.finished|].0 == u; }
      else {
        var i :| 0 <= i < |s.log.finished| && s.log.finished[i].0 == u;
        assert s'.log.finished[i].0 == u;
      }
    }
    forall u | Finished(s', u) && u != t ensures Finished(s, u) {
      var i :| 0 <= i < |s'.log.finished| && s'.log.finished[i].0 == u;
      assert s.log.finished[i].0 == u;
    }
  }

  lemma StartKeepsTracked(s: State, limits: Limits, a: nat)
    requires Inv(s, limits) && Tracked(s) && Enabled(s, limits, NextTurn(a))
    requires !s.lifecycleDone && s.queues[s.actors[a].conversationID].items != []
    ensures Tracked(StartTurn(s, a))
  {
    var c := s.actors[a].conversationID;
    var t := s.queues[c].items[0];
    assert QueueShaped(s.queues[c], c, limits) && Queued(s, t);
    StartKeepsContexts(s, a);
    assert t in s.log.accepted && t !in s.log.started && forall u :: u in s.log.started ==> u in s.log.accepted;
    StartKeepsFinished(s, a);
  }

  lemma StartKeepsContexts(s: State, a: nat)
    requires Tracked(s) && a in s.actors && s.actors[a].stage == Between && s.actors[a].conversationID in s.queues
    requires s.queues[s.actors[a].conversationID].items != []
    ensures var s' := StartTurn(s, a);
      forall k :: k in s'.contexts ==> exists b :: RunningActor(s', b) && s'.actors[b].stage.turn.serial == k
  {
    var s' := StartTurn(s, a);
    forall k | k in s'.contexts ensures exists b :: RunningActor(s', b) && s'.actors[b].stage.turn.serial == k {
      if k == s.queues[s.actors[a].conversationID].items[0].serial {
        assert RunningActor(s', a);
      } else {
        var b :| RunningActor(s, b) && s.actors[b].stage.turn.serial == k;
        assert RunningActor(s', b) && s'.actors[b] == s.actors[b];
      }
    }
  }

  lemma StartKeepsFinished(s: State, a: nat)
    requires Tracked(s) && a in s.actors && s.actors[a].conversationID in s.queues
    requires s.queues[s.actors[a].conversationID].items != []
    requires Increasing(s.log.accepted, s.next) && forall u :: u in s.log.started ==> u in s.log.accepted
    requires var t := s.queues[s.actors[a].conversationID].items[0]; t in s.log.accepted && t !in s.log.started
    ensures var s' := StartTurn(s, a);
      && (forall u :: u in s'.log.started ==> (u.serial in s'.contexts <==> !Finished(s', u)))
      && (forall i :: 0 <= i < |s'.log.finished| ==> s'.log.finished[i].0 in s'.log.started)
  {
  }

  lemma FinishKeepsTracked(s: State, a: nat)
    requires Tracked(s) && RunningActor(s, a) && s.actors[a].conversationID in s.queues
    requires s.actors[a].stage.turn in s.log.started && s.actors[a].stage.turn.serial in s.contexts
    requires Increasing(s.log.accepted, s.next) && forall u :: u in s.log.started ==> u in s.log.accepted
    ensures Tracked(FinishStep(s, a))
  {
    var s', t := FinishStep(s, a), s.actors[a].stage.turn;
    FinishedSnoc(s, s', t, s.contexts[t.serial]);
    forall k | k in s'.contexts ensures exists b :: RunningActor(s', b) && s'.actors[b].stage.turn.serial == k {
      var b :| RunningActor(s, b) && s.actors[b].stage.turn.serial == k;
      assert RunningActor(s', b) && s'.actors[b] == s.actors[b];
    }
    forall u | u in s'.log.started ensures u.serial in s'.contexts <==> !Finished(s', u) {
      if u.serial == t.serial { SameSerialSameTurn(s, t, u); }
    }
  }

  /** Tracking depends on the contexts' keys, the started and finished turns and the running goroutines only. */
  lemma TrackedFrame(s: State, s': State)
    requires Tracked(s)
    requires Frame(s, s')
    ensures Tracked(s')
  {
  }

  /** Running goroutines, their contexts' first causes and the turn history are as before. */
  ghost predicate Frame(s: State, s': State) {
    && s'.contexts.Keys == s.contexts.Keys && s'.log.started == s.log.started && s'.log.finished == s.log.finished
    && (forall b :: RunningActor(s, b) ==> b in s'.actors && s'.actors[b] == s.actors[b])
    && (forall k :: k in s.contexts && s.contexts[k].Some? ==> s'.contexts[k] == s.contexts[k])
  }

  lemma EnqueueFrame(s: State, r: Request)
    requires forall b :: b in s.actors ==> b < s.next
    ensures Frame(s, Enqueue(s, r))
  {
  }

  lemma OtherStepFrame(s: State, limits: Limits, e: Event)
    requires Enabled(s, limits, e) && !e.NextTurn? && !e.Finish?
    requires forall b :: b in s.actors ==> b < s.next
    ensures Frame(s, Step(s, limits, e))
  {
    if e.Submit? {
      EnqueueFrame(s, e.request);
      EnqueueFrame(Claimed(s, limits, e.request, e.now, e.fault).0, e.request);
    }
  }

  lemma ActorsBelowNext(s: State)
    requires Wired(s)
    ensures forall b :: b in s.actors ==> b < s.next
  {
  }

  lemma StepKeepsTracked(s: State, limits: Limits, e: Event)
    requires Inv(s, limits) && Tracked(s) && Enabled(s, limits, e)
    ensures Tracked(Step(s, limits, e))
  {
    if e.NextTurn? {
      if s.lifecycleDone || s.queues[s.actors[e.actor].conversationID].items == [] {
        TrackedFrame(s, DropQueue(s, e.actor, Leaving(true)));
      } else {
        StartKeepsTracked(s, limits, e.actor);
      }
    } else if e.Finish? {
      assert ActorWired(s, e.actor);
      FinishKeepsTracked(s, e.actor);
    } else {
      ActorsBelowNext(s);
      OtherStepFrame(s, limits, e);
      TrackedFrame(s, Step(s, limits, e));
    }
  }

  /** `t` is bound to end with cause `v`: its context holds it, or it has been recorded. */
  ghost predicate Settled(s: State, t: Turn, v: Cause) {
    && t in s.log.started
    && (t.serial in s.contexts ==> s.contexts[t.serial] == Some(v))
    && (forall i :: 0 <= i < |s.log.finished| && s.log.finished[i].0 == t ==> s.log.finished[i].1 == Some(v))
  }

  lemma StepKeepsSettled(s: State, limits: Limits, e: Event, t: Turn, v: Cause)
    requires Inv(s, limits) && Enabled(s, limits, e) && Settled(s, t, v)
    ensures Settled(Step(s, limits, e), t, v)
  {
    if e.NextTurn? {
      NextTurnKeepsSettled(s, limits, e.actor, t, v);
    } else if e.Finish? {
      assert ActorWired(s, e.actor);
      FinishKeepsSettled(s, e.actor, t, v);
    } else {
      ActorsBelowNext(s);
      OtherStepFrame(s, limits, e);
    }
  }

  lemma NextTurnKeepsSettled(s: State, limits: Limits, a: nat, t: Turn, v: Cause)
    requires Inv(s, limits) && Enabled(s, limits, NextTurn(a)) && Settled(s, t, v)
    ensures Settled(NextTurnStep(s, a), t, v)
  {
    var c := s.actors[a].conversationID;
    if !s.lifecycleDone && s.queues[c].items != [] {
      var u := s.queues[c].items[0];
      assert QueueShaped(s.queues[c], c, limits) && Queued(s, u);
      assert u in s.log.accepted && t in s.log.accepted;
      if u.serial == t.serial { SameSerialSameTurn(s, t, u); }
    }
  }

  lemma FinishKeepsSettled(s: State, a: nat, t: Turn, v: Cause)
    requires RunningActor(s, a) && s.actors[a].conversationID in s.queues && s.actors[a].stage.turn.serial in s.contexts
    requires Settled(s, t, v)
    ensures Settled(FinishStep(s, a), t, v)
  {
  }

  /** From a stop's acceptance on, the turn it interrupts ends with the user's stop, or with the cause it already had. */
  lemma {:induction false} StopCauseIsRecorded(s: State, limits: Limits, events: seq<Event>, s': State, t: Turn, v: Cause)
    requires Inv(s, limits) && ValidLimits(limits) && Tracked(s) && Settled(s, t, v) && Run(s, limits, events, s')
    ensures Settled(s', t, v) && Tracked(s')
    decreases |events|
  {
    if events != [] {
      StepKeepsInv(s, limits, events[0]);
      StepKeepsTracked(s, limits, events[0]);
      StepKeepsSettled(s, limits, events[0], t, v);
      StopCauseIsRecorded(Step(s, limits, events[0]), limits, events[1..], s', t, v);
    }
  }

  lemma {:induction false} RunKeepsTracked(s: State, limits: Limits, events: seq<Event>, s': State)
    requires Inv(s, limits) && ValidLimits(limits) && Tracked(s) && Run(s, limits, events, s')
    ensures Tracked(s')
    decreases |events|
  {
    if events != [] {
      StepKeepsInv(s, limits, events[0]);
      StepKeepsTracked(s, limits, events[0]);
      RunKeepsTracked(Step(s, limits, events[0]), limits, events[1..], s');
    }
  }

  lemma ReachableTracked(s: State, limits: Limits)
    requires ValidLimits(limits) && Reachable(limits, s)
    ensures Inv(s, limits) && Tracked(s)
  {
    ReachableInv(s, limits);
    var ledger, events :| Run(Initial(ledger), limits, events, s);
    InitialInv(ledger, limits);
    RunKeepsTracked(Initial(ledger), limits, events, s);
  }

  /** An accepted stop settles the cause of the turn its conversation is running, in every continuation. */
  lemma AcceptedStopSettlesRunningTurn(s: State, limits: Limits, r: Request, now: int, fault: Ingress.Fault, a: nat,
                                       later: seq<Event>, end: State)
    requires ValidLimits(limits) && Reachable(limits, s) && Enabled(s, limits, Submit(r, now, fault))
    requires r.priority && SubmitStep(s, limits, r, now, fault).1 == Accepted
    requires RunningActor(s, a) && s.actors[a].conversationID == r.conversationID
    requires Run(SubmitStep(s, limits, r, now, fault).0, limits, later, end)
    ensures s.actors[a].stage.turn.serial in s.contexts
    ensures var t := s.actors[a].stage.turn;
      var v := s.contexts[t.serial].GetOr(StoppedByUser);
      Settled(end, t, v) && (t.serial in end.contexts || (t, Some(v)) in end.log.finished)
  {
    ReachableTracked(s, limits);
    var e, t := Submit(r, now, fault), s.actors[a].stage.turn;
    assert ActorWired(s, a);
    StepKeepsInv(s, limits, e);
    StepKeepsTracked(s, limits, e);
    var v := s.contexts[t.serial].GetOr(StoppedByUser);
    StopSettles(s, limits, r, now, fault, a);
    StopCauseIsRecorded(Step(s, limits, e), limits, later, end, t, v);
    if t.serial !in end.contexts {
      var i :| 0 <= i < |end.log.finished| && end.log.finished[i].0 == t;
      assert end.log.finished[i] == (t, Some(v));
    }
  }

  lemma StopSettles(s: State, limits: Limits, r: Request, now: int, fault: Ingress.Fault, a: nat)
    requires Tracked(s) && RunningActor(s, a) && s.actors[a].conversationID == r.conversationID
    requires var t := s.actors[a].stage.turn;
      t in s.log.started && t.serial in s.contexts
      && r.conversationID in s.queues && s.queues[r.conversationID].current == Some(t.serial)
    requires r.priority && SubmitStep(s, limits, r, now, fault).1 == Accepted
    ensures var t := s.actors[a].stage.turn;
      Settled(SubmitStep(s, limits, r, now, fault).0, t, s.contexts[t.serial].GetOr(StoppedByUser))
  {
  }

  // ---- Conservation ----

  /** Accepted turns are the disjoint union of the started, the discarded and the queued ones. */
  lemma AcceptedTurnsAreConserved(s: State, limits: Limits, t: Turn)
    requires ValidLimits(limits) && Reachable(limits, s)
    ensures t in s.log.accepted <==> t in s.log.started || t in s.log.discarded || Queued(s, t)
    ensures !(t in s.log.started && t in s.log.discarded)
    ensures Queued(s, t) ==> t !in s.log.started && t !in s.log.discarded
    ensures Distinct(s.log.accepted) && Distinct(s.log.started) && Distinct(s.log.discarded)
    ensures s.log.discarded != [] ==> s.lifecycleDone && !s.accepting
  {
    ReachableInv(s, limits);
  }

  /** Turns that claim the same event were claimed at least one retention period apart. */
  ghost predicate AcceptedClaimsSpaced(s: State, limits: Limits) {
    var ts := Claimants(s.log.accepted);
    |s.log.grants| == |ts| && forall i, j :: 0 <= i < j < |ts| && ts[i].source == ts[j].source && ts[i].eventID == ts[j].eventID ==>
      s.log.grants[i].1 + limits.retention <= s.log.grants[j].1
  }

  lemma SpacedMeans(s: State, limits: Limits)
    requires Matched(s.log.grants, Claimants(s.log.accepted))
    ensures AcceptedClaimsSpaced(s, limits) <==> Ingress.Spaced(limits.retention, s.log.grants)
  {
    var gs, ts := s.log.grants, Claimants(s.log.accepted);
    assert forall i, j :: 0 <= i < j < |gs| ==>
      (gs[i].0 == gs[j].0 <==> ts[i].source == ts[j].source && ts[i].eventID == ts[j].eventID);
  }

  /** While no claim returns behind a pruning, no event is accepted twice within the retention. */
  lemma AcceptedClaimsAreSpaced(s: State, limits: Limits)
    requires ValidLimits(limits) && Reachable(limits, s) && Ingress.NoneComesBack(s.log.claims, limits.retention)
    ensures AcceptedClaimsSpaced(s, limits)
  {
    ReachableInv(s, limits);
    SpacedMeans(s, limits);
  }

  /** A submit that gets as far as its row finds every earlier grant of its event lapsed, or the row standing. */
  ghost predicate ClaimGuarded(s: State, limits: Limits, e: Event) {
    e.Submit? && Admission(s, limits, e.request) == Accepted && !e.request.retryable
    && Ingress.Proceeds(s.ledger, e.request.source, e.request.eventID, e.now, e.fault) ==>
      forall i :: 0 <= i < |s.log.grants| && s.log.grants[i].0 == (e.request.source, e.request.eventID) ==>
        Ingress.Guarded(s.ledger, limits.retention, s.log.grants[i], e.now)
  }

  ghost predicate AllGuarded(s: State, limits: Limits, events: seq<Event>)
    decreases |events|
  {
    events != [] && Enabled(s, limits, events[0]) ==>
      ClaimGuarded(s, limits, events[0]) && AllGuarded(Step(s, limits, events[0]), limits, events[1..])
  }

  lemma StepGrants(s: State, limits: Limits, e: Event)
    requires Enabled(s, limits, e)
    ensures s.log.grants <= Step(s, limits, e).log.grants
    ensures Ingress.Spaced(limits.retention, s.log.grants) ==>
      (Ingress.Spaced(limits.retention, Step(s, limits, e).log.grants) <==> ClaimGuarded(s, limits, e))
  {
    if e.Submit? && Ingress.Spaced(limits.retention, s.log.grants) {
      Ingress.ClaimKeepsSpacingExactly(
        s.ledger, limits.retention, s.log.grants, e.request.source, e.request.eventID, e.now, e.fault);
    }
  }

  lemma {:induction false} GrantsGrow(s: State, limits: Limits, events: seq<Event>, s': State)
    requires Run(s, limits, events, s')
    ensures s.log.grants <= s'.log.grants
    decreases |events|
  {
    if events != [] {
      StepGrants(s, limits, events[0]);
      GrantsGrow(Step(s, limits, events[0]), limits, events[1..], s');
    }
  }

  lemma {:induction false} GrantsStaySpacedExactly(s: State, limits: Limits, events: seq<Event>, s': State)
    requires Run(s, limits, events, s') && Ingress.Spaced(limits.retention, s.log.grants)
    ensures Ingress.Spaced(limits.retention, s'.log.grants) <==> AllGuarded(s, limits, events)
    decreases |events|
  {
    if events != [] {
      var next := Step(s, limits, events[0]);
      StepGrants(s, limits, events[0]);
      if ClaimGuarded(s, limits, events[0]) {
        GrantsStaySpacedExactly(next, limits, events[1..], s');
      } else {
        GrantsGrow(next, limits, events[1..], s');
        SpacedPrefix(limits.retention, next.log.grants, s'.log.grants);
      }
    }
  }

  lemma SpacedPrefix(retention: nat, a: Ingress.Grants, b: Ingress.Grants)
    requires a <= b
    ensures Ingress.Spaced(retention, b) ==> Ingress.Spaced(retention, a)
  {
  }

  /** Over any run, with claims in any order, accepted claims are spaced exactly when every claim was guarded. */
  lemma AcceptedClaimsAreSpacedExactly(ledger: Ingress.Ledger, limits: Limits, events: seq<Event>, s: State)
    requires ValidLimits(limits) && Run(Initial(ledger), limits, events, s)
    ensures AcceptedClaimsSpaced(s, limits) <==> AllGuarded(Initial(ledger), limits, events)
  {
    InitialInv(ledger, limits);
    RunKeepsInv(Initial(ledger), limits, events, s);
    SpacedMeans(s, limits);
    GrantsStaySpacedExactly(Initial(ledger), limits, events, s);
  }

  // ---- Refusals ----

  /** A submit that is refused for its form, for capacity or because admission is closed. */
  predicate RefusedSubmit(s: State, limits: Limits, e: Event) { e.Submit? && Admission(s, limits, e.request) != Accepted }

  /** The events of a run without its refused submits. */
  ghost function WithoutRefusals(s: State, limits: Limits, events: seq<Event>): seq<Event>
    decreases |events|
  {
    if events == [] || !Enabled(s, limits, events[0]) then events else
      (if RefusedSubmit(s, limits, events[0]) then [] else [events[0]])
      + WithoutRefusals(Step(s, limits, events[0]), limits, events[1..])
  }

  /** Refusals leave no trace: the run without them leads to the same state, claims and histories included. */
  lemma {:induction false} RefusalsLeaveNoTrace(s: State, limits: Limits, events: seq<Event>, s': State)
    requires Run(s, limits, events, s')
    ensures Run(s, limits, WithoutRefusals(s, limits, events), s')
    decreases |events|
  {
    if events != [] {
      var rest := WithoutRefusals(Step(s, limits, events[0]), limits, events[1..]);
      RefusalsLeaveNoTrace(Step(s, limits, events[0]), limits, events[1..], s');
      if RefusedSubmit(s, limits, events[0]) {
        assert Step(s, limits, events[0]) == s && [] + rest == rest;
      } else {
        RunCons(s, limits, events[0], rest, s');
      }
    }
  }

  lemma RunCons(s: State, limits: Limits, e: Event, rest: seq<Event>, end: State)
    requires Enabled(s, limits, e) && Run(Step(s, limits, e), limits, rest, end)
    ensures Run(s, limits, [e] + rest, end) && ActorSteps([e] + rest) == (if IsActorStep(e) then 1 else 0) + ActorSteps(rest)
  {
    assert ([e] + rest)[1..] == rest;
  }

  // ---- Drain ----

  predicate IsActorStep(e: Event) {
    e.AcquireSlot? || e.DiscardQueue? || e.NextTurn? || e.Finish? || e.Leave?
  }

  function Weight(g: Stage): nat {
    match g
    case Waiting => 4
    case Between => 2
    case Running(_) => 3
    case Leaving(_) => 1
  }

  ghost function Weights(actors: map<nat, Actor>): map<nat, nat> {
    map a | a in actors :: Weight(actors[a].stage)
  }

  /** How many goroutine steps are left at most. */
  ghost function Measure(s: State): nat
    requires 0 <= s.pending
  {
    Sum(Weights(s.actors)) + 2 * s.pending + (if s.lifecycleDone then 0 else 1)
  }

  lemma PutWeight(actors: map<nat, Actor>, a: nat, g: Actor)
    requires a in actors
    ensures Sum(Weights(actors[a := g])) == Sum(Weights(actors)) + Weight(g.stage) - Weight(actors[a].stage)
  {
    SumUpdate(Weights(actors), a, Weight(g.stage));
    assert Weights(actors[a := g]) == Weights(actors)[a := Weight(g.stage)];
  }

  lemma RemoveWeight(actors: map<nat, Actor>, a: nat)
    requires a in actors
    ensures Sum(Weights(actors - {a})) == Sum(Weights(actors)) - Weight(actors[a].stage)
  {
    SumRemove(Weights(actors), a);
    assert Weights(actors - {a}) == Weights(actors) - {a};
  }

  lemma ActorStepMeasure(s: State, limits: Limits, e: Event)
    requires Enabled(s, limits, e) && IsActorStep(e) && 0 <= s.pending && 0 <= Step(s, limits, e).pending
    ensures Measure(Step(s, limits, e)) < Measure(s) && Step(s, limits, e).accepting == s.accepting
  {
    var s' := Step(s, limits, e);
    if e.Leave? {
      RemoveWeight(s.actors, e.actor);
    } else {
      PutWeight(s.actors, e.actor, s'.actors[e.actor]);
    }
  }

  lemma StepMeasure(s: State, limits: Limits, e: Event)
    requires Inv(s, limits) && ValidLimits(limits) && Enabled(s, limits, e) && !s.accepting
    ensures 0 <= Step(s, limits, e).pending && !Step(s, limits, e).accepting
    ensures IsActorStep(e) ==> Measure(Step(s, limits, e)) < Measure(s)
    ensures Measure(Step(s, limits, e)) <= Measure(s)
  {
    StepKeepsInv(s, limits, e);
    if IsActorStep(e) { ActorStepMeasure(s, limits, e); }
  }

  ghost function ActorSteps(events: seq<Event>): nat {
    if events == [] then 0 else (if IsActorStep(events[0]) then 1 else 0) + ActorSteps(events[1..])
  }

  /** After admission has closed, goroutines take at most `Measure` steps, whatever the environment does. */
  lemma {:induction false} DrainIsBounded(s: State, limits: Limits, events: seq<Event>, s': State)
    requires Inv(s, limits) && ValidLimits(limits) && !s.accepting && Run(s, limits, events, s')
    ensures Inv(s', limits) && !s'.accepting
    ensures ActorSteps(events) + Measure(s') <= Measure(s)
    decreases |events|
  {
    if events != [] {
      StepKeepsInv(s, limits, events[0]);
      StepMeasure(s, limits, events[0]);
      DrainIsBounded(Step(s, limits, events[0]), limits, events[1..], s');
    }
  }

  /** While a goroutine is left, one of them can take a step (a running turn returns). */
  lemma NeverStuck(s: State, limits: Limits) returns (e: Event)
    requires Inv(s, limits) && ValidLimits(limits) && s.actors != map[]
    ensures IsActorStep(e) && Enabled(s, limits, e)
  {
    if a :| a in s.actors && s.actors[a].stage.Leaving? {
      e := Leave(a);
    } else if a :| a in s.actors && s.actors[a].stage.Between? {
      assert ActorWired(s, a);
      e := NextTurn(a);
    } else if a :| a in s.actors && s.actors[a].stage.Running? {
      assert ActorWired(s, a);
      e := Finish(a);
    } else {
      var a :| a in s.actors;
      AllWaiting(s.actors);
      e := AcquireSlot(a);
    }
  }

  lemma {:induction false} AllWaiting(actors: map<nat, Actor>)
    requires forall a :: a in actors ==> actors[a].stage.Waiting?
    ensures Sum(SlotUses(actors)) == 0
    decreases |actors|
  {
    if a :| a in actors {
      RemoveActor(actors, a);
      AllWaiting(actors - {a});
    } else {
      assert SlotUses(actors) == map[];
    }
  }

  /** With no goroutine left the scheduler is empty, and every accepted turn has been run to its end or discarded. */
  lemma DrainedIsEmpty(s: State, limits: Limits)
    requires Inv(s, limits) && Tracked(s) && s.actors == map[]
    ensures Empty(s)
  {
  }

  ghost predicate Draining(s: State, limits: Limits) {
    Inv(s, limits) && Tracked(s) && !s.accepting
  }

  lemma DrainStep(s: State, limits: Limits) returns (e: Event, s': State)
    requires Draining(s, limits) && ValidLimits(limits) && s.actors != map[]
    ensures IsActorStep(e) && Enabled(s, limits, e) && s' == Step(s, limits, e) && Draining(s', limits)
    ensures 0 <= s.pending && 0 <= s'.pending && Measure(s') < Measure(s)
  {
    e := NeverStuck(s, limits);
    s' := Step(s, limits, e);
    StepKeepsInv(s, limits, e);
    StepKeepsTracked(s, limits, e);
    StepMeasure(s, limits, e);
  }

  ghost predicate Empty(s: State) {
    && s.actors == map[] && s.queues == map[] && s.pending == 0 && s.slotsUsed == 0 && s.contexts == map[]
    && forall t :: t in s.log.accepted ==> Finished(s, t) || t in s.log.discarded
  }

  /** Shutdown ends: goroutine steps alone lead from any closed state to the empty one. */
  lemma {:induction false} DrainReachesEmpty(s: State, limits: Limits) returns (events: seq<Event>, end: State)
    requires Draining(s, limits) && ValidLimits(limits) && 0 <= s.pending
    ensures Run(s, limits, events, end) && ActorSteps(events) == |events|
    ensures Empty(end)
    decreases Measure(s)
  {
    if s.actors == map[] {
      DrainedIsEmpty(s, limits);
      events, end := [], s;
    } else {
      var e, s' := DrainStep(s, limits);
      var rest;
      rest, end := DrainReachesEmpty(s', limits);
      events := [e] + rest;
      RunCons(s, limits, e, rest, end);
    }
  }

  /** However a run goes on after admission closed: goroutine steps are bounded, and where none is left all is empty. */
  lemma EveryDrainEnds(s: State, limits: Limits, events: seq<Event>, end: State)
    requires ValidLimits(limits) && Reachable(limits, s) && !s.accepting && Run(s, limits, events, end)
    ensures 0 <= s.pending && ActorSteps(events) <= Measure(s)
    ensures Empty(end) || exists e :: IsActorStep(e) && Enabled(end, limits, e)
  {
    ReachableTracked(s, limits);
    DrainIsBounded(s, limits, events, end);
    RunKeepsTracked(s, limits, events, end);
    if end.actors == map[] {
      DrainedIsEmpty(end, limits);
    } else {
      var e := NeverStuck(end, limits);
    }
  }

  lemma {:induction false} CancelledStaysCancelled(s: State, limits: Limits, events: seq<Event>, end: State)
    requires s.lifecycleDone && Run(s, limits, events, end)
    ensures end.lifecycleDone && end.log.started == s.log.started
    decreases |events|
  {
    if events != [] { CancelledStaysCancelled(Step(s, limits, events[0]), limits, events[1..], end); }
  }

  /** After the lifecycle is cancelled no turn starts in any continuation, and every queue that is dropped is discarded. */
  lemma NoStartAfterCancel(s: State, limits: Limits, events: seq<Event>, end: State)
    requires ValidLimits(limits) && Reachable(limits, s) && Enabled(s, limits, CancelLifecycle)
    requires Run(Step(s, limits, CancelLifecycle), limits, events, end)
    ensures end.log.started == s.log.started
    ensures end.actors == map[] ==>
      forall t :: t in s.log.accepted && t !in s.log.started ==> t in end.log.discarded
  {
    ReachableTracked(s, limits);
    var cancelled := Step(s, limits, CancelLifecycle);
    StepKeepsInv(s, limits, CancelLifecycle);
    StepKeepsTracked(s, limits, CancelLifecycle);
    CancelledStaysCancelled(cancelled, limits, events, end);
    RunKeepsInv(cancelled, limits, events, end);
    AcceptedStay(cancelled, limits, events, end);
    assert end.actors == map[] ==> end.queues == map[] by {
      if c :| c in end.queues { assert QueueOwned(end, c); }
    }
  }

  lemma {:induction false} AcceptedStay(s: State, limits: Limits, events: seq<Event>, end: State)
    requires Run(s, limits, events, end)
    ensures s.log.accepted <= end.log.accepted
    decreases |events|
  {
    if events != [] { AcceptedStay(Step(s, limits, events[0]), limits, events[1..], end); }
  }
}
