/** What each section of the scheduler answers and changes, told from the fields of a reachable state (scheduler.go). */
module SchedulerAnswers {
  import opened Common
  import opened SchedulerModel
  import opened SchedulerInvariants
  import opened SchedulerSteps
  import Ingress

  predicate WellFormed(r: Request) { r.source != "" && r.eventID != "" && r.conversationID != "" && r.hasRun }

  predicate RunsTurnOf(s: State, c: string, a: nat) {
    a in s.actors && s.actors[a].stage.Running? && s.actors[a].conversationID == c
  }

  /** The conversation runs a turn or has one waiting, and no earlier stop of it has raised the flag. */
  ghost predicate MayStop(s: State, c: string) {
    c in s.queues && !s.queues[c].controlQueued && (s.queues[c].items != [] || exists a :: RunsTurnOf(s, c, a))
  }

  ghost predicate Waiting(s: State, c: string, n: int) { c in s.queues && |s.queues[c].items| >= n }

  /** A conversation's queue stores a cancel function exactly while a goroutine runs a turn of it. */
  lemma CurrentMeansRunning(s: State, limits: Limits, c: string)
    requires ValidLimits(limits) && Reachable(limits, s)
    ensures c in s.queues && s.queues[c].current.Some? <==> exists a :: RunsTurnOf(s, c, a)
    ensures forall a :: RunsTurnOf(s, c, a) ==>
      c in s.queues && s.queues[c].current == Some(s.actors[a].stage.turn.serial) && s.actors[a].stage.turn.serial in s.contexts
  {
    ReachableInv(s, limits);
    forall a | a in s.actors ensures ActorWired(s, a) {}
    if c in s.queues && s.queues[c].current.Some? {
      assert QueueOwned(s, c);
      assert RunsTurnOf(s, c, s.queues[c].actor);
    }
  }

  /** The context `k` has a cause afterwards: the one it had, or else this one. */
  predicate Caused(s: State, s': State, k: nat, cause: Cause) {
    k in s.contexts && k in s'.contexts && s'.contexts[k] == Some(s.contexts[k].GetOr(cause))
  }

  predicate SameCause(s: State, s': State, k: nat) { k in s.contexts && k in s'.contexts && s'.contexts[k] == s.contexts[k] }

  // ---- Verdicts ----

  /** Each refusal for form, for shutdown or for capacity has its exact condition; a stop that may bypass has none of the latter. */
  lemma RefusalsExactly(s: State, limits: Limits, r: Request, now: int, fault: Ingress.Fault)
    requires ValidLimits(limits) && Reachable(limits, s)
    ensures var v, bypass := SubmitStep(s, limits, r, now, fault).1, r.priority && MayStop(s, r.conversationID);
      var open := WellFormed(r) && s.accepting;
      && (v == Invalid <==> !WellFormed(r))
      && (v == Closed <==> WellFormed(r) && !s.accepting)
      && (v == PendingLimit <==> open && s.pending >= limits.maxPending && !bypass)
      && (v == ConversationLimit <==>
            open && s.pending < limits.maxPending && Waiting(s, r.conversationID, limits.maxConversationPending) && !bypass)
  {
    CurrentMeansRunning(s, limits, r.conversationID);
  }

  /** A well-formed stop for a busy conversation is refused for capacity in no open scheduler, however full. */
  lemma StopsPassTheCaps(s: State, limits: Limits, r: Request, now: int, fault: Ingress.Fault)
    requires ValidLimits(limits) && Reachable(limits, s) && WellFormed(r) && s.accepting
    requires r.priority && MayStop(s, r.conversationID)
    ensures SubmitStep(s, limits, r, now, fault).1 in {Accepted, ClaimFailed, Verdict.Duplicate}
    ensures r.retryable ==> SubmitStep(s, limits, r, now, fault).1 == Accepted
  {
    RefusalsExactly(s, limits, r, now, fault);
  }

  /** What is not refused before the claim is accepted when it is retryable or its claim is granted, and only then. */
  lemma AcceptedExactly(s: State, limits: Limits, r: Request, now: int, fault: Ingress.Fault)
    ensures var v := SubmitStep(s, limits, r, now, fault).1;
      var claim := Ingress.Claim(s.ledger, limits.retention, r.source, r.eventID, now, fault).1;
      var refused := v in {Invalid, Closed, PendingLimit, ConversationLimit};
      && (v == Accepted <==> !refused && (r.retryable || claim == Ingress.Claimed))
      && (v == ClaimFailed <==> !refused && !r.retryable && claim == Ingress.Failed)
      && (v == Verdict.Duplicate <==> !refused && !r.retryable && claim == Ingress.Duplicate)
  {
  }

  // ---- Effects ----

  /** The turn that a request becomes. */
  predicate IsTurnOf(t: Turn, s: State, r: Request) {
    && t.serial == s.next && t.source == r.source && t.eventID == r.eventID && t.conversationID == r.conversationID
    && t.priority == r.priority && t.retryable == r.retryable
  }

  /** Only the queue of `c`, the goroutines, the contexts, the counters and the records of claims and acceptances differ. */
  predicate ElseSame(s: State, s': State, c: string) {
    && s'.accepting == s.accepting && s'.slotsUsed == s.slotsUsed && s'.lifecycleDone == s.lifecycleDone
    && s'.log.started == s.log.started && s'.log.discarded == s.log.discarded && s'.log.finished == s.log.finished
    && s'.queues.Keys == s.queues.Keys + {c} && (forall d :: d in s.queues && d != c ==> s'.queues[d] == s.queues[d])
  }

  /** An accepted turn joins its queue once, a stop in front and any other behind, and is counted; nothing else moves. */
  lemma AcceptedTurnsJoin(s: State, limits: Limits, r: Request, now: int, fault: Ingress.Fault)
    requires SubmitStep(s, limits, r, now, fault).1 == Accepted
    ensures var s', c := SubmitStep(s, limits, r, now, fault).0, r.conversationID;
      var was := if c in s.queues then s.queues[c].items else [];
      && ElseSame(s, s', c) && s'.pending == s.pending + 1 && s'.next == s.next + 1
      && |s'.log.accepted| == |s.log.accepted| + 1 && s'.log.accepted[..|s.log.accepted|] == s.log.accepted
      && var t := s'.log.accepted[|s.log.accepted|];
        IsTurnOf(t, s, r) && s'.queues[c].items == (if r.priority then [t] + was else was + [t])
        && (s'.queues[c].controlQueued <==> r.priority || (c in s.queues && s.queues[c].controlQueued))
  {
  }

  /** An accepted turn's conversation gets a goroutine exactly when it had no queue; only a stop touches a context, its own. */
  lemma AcceptedTurnsAreServed(s: State, limits: Limits, r: Request, now: int, fault: Ingress.Fault)
    requires ValidLimits(limits) && Reachable(limits, s) && SubmitStep(s, limits, r, now, fault).1 == Accepted
    ensures var s', c := SubmitStep(s, limits, r, now, fault).0, r.conversationID;
      && s'.actors == (if c in s.queues then s.actors else s.actors[s.next := Actor(c, Stage.Waiting)])
      && s'.contexts.Keys == s.contexts.Keys
      && (forall a :: RunsTurnOf(s, c, a) && r.priority ==> Caused(s, s', s.actors[a].stage.turn.serial, StoppedByUser))
      && (forall k :: k in s.contexts && !SameCause(s, s', k) ==>
            r.priority && exists a :: RunsTurnOf(s, c, a) && s.actors[a].stage.turn.serial == k)
  {
    QueuesRun(s, limits, r.conversationID);
    CurrentMeansRunning(s, limits, r.conversationID);
    AcceptedContexts(s, limits, r, now, fault);
  }

  lemma QueuesRun(s: State, limits: Limits, c: string)
    requires ValidLimits(limits) && Reachable(limits, s)
    ensures c in s.queues ==> s.queues[c].running
  {
    ReachableInv(s, limits);
    assert c in s.queues ==> QueueOwned(s, c);
  }

  lemma AcceptedContexts(s: State, limits: Limits, r: Request, now: int, fault: Ingress.Fault)
    requires SubmitStep(s, limits, r, now, fault).1 == Accepted
    requires r.conversationID in s.queues ==> s.queues[r.conversationID].running
    ensures var s', c := SubmitStep(s, limits, r, now, fault).0, r.conversationID;
      var stops := r.priority && c in s.queues && s.queues[c].current.Some?;
      && s'.actors == (if c in s.queues then s.actors else s.actors[s.next := Actor(c, Stage.Waiting)])
      && s'.contexts == if stops then CancelContext(s.contexts, s.queues[c].current.value, StoppedByUser) else s.contexts
  {
  }

  /** A refusal changes nothing; a failed or repeated claim changes the claim table alone. */
  lemma RefusalsChangeNothing(s: State, limits: Limits, r: Request, now: int, fault: Ingress.Fault)
    requires SubmitStep(s, limits, r, now, fault).1 != Accepted
    ensures var (s', v) := SubmitStep(s, limits, r, now, fault);
      && (v in {Invalid, Closed, PendingLimit, ConversationLimit} ==> s' == s)
      && s' == s.(ledger := s'.ledger, log := s.log.(claims := s'.log.claims))
  {
  }

  /** Cancelling answers yes exactly while a turn of the conversation runs, and gives that turn its first cause. */
  lemma CancelReachesTheRunningTurn(s: State, limits: Limits, c: string, cause: Cause)
    requires ValidLimits(limits) && Reachable(limits, s)
    ensures var (s', found) := CancelStep(s, c, cause);
      && (found <==> exists a :: RunsTurnOf(s, c, a))
      && s' == s.(contexts := s'.contexts) && s'.contexts.Keys == s.contexts.Keys
      && (forall a :: RunsTurnOf(s, c, a) ==> Caused(s, s', s.actors[a].stage.turn.serial, cause))
      && (forall k :: k in s.contexts && !SameCause(s, s', k) ==>
            exists a :: RunsTurnOf(s, c, a) && s.actors[a].stage.turn.serial == k)
  {
    CurrentMeansRunning(s, limits, c);
  }

  /** Shutting down gives every turn that runs a cause, its timeout gives one turn one; a first cause stays. */
  lemma CausesReachTurns(s: State, limits: Limits, k: nat)
    requires k in s.contexts
    ensures Enabled(s, limits, CancelLifecycle) ==>
      var s' := Step(s, limits, CancelLifecycle);
      s'.lifecycleDone && s'.contexts.Keys == s.contexts.Keys && Caused(s, s', k, ShuttingDown)
    ensures var s' := Step(s, limits, TimerFires(k));
      s'.contexts.Keys == s.contexts.Keys && Caused(s, s', k, DeadlineExceeded)
      && forall j :: j in s.contexts && j != k ==> SameCause(s, s', j)
  {
  }

  /** A goroutine between turns starts the head of its queue; shut down or without one it drops the queue and leaves. */
  lemma NextTurnExactly(s: State, limits: Limits, a: nat)
    requires Enabled(s, limits, NextTurn(a))
    ensures var s', c := Step(s, limits, NextTurn(a)), s.actors[a].conversationID;
      var items := s.queues[c].items;
      if !s.lifecycleDone && items != [] then
        && s'.actors[a].stage == Running(items[0]) && s'.log.started == s.log.started + [items[0]]
        && c in s'.queues && s'.queues[c].items == items[1..] && s'.pending == s.pending - 1
        && s'.contexts == s.contexts[items[0].serial := None] && s'.log.discarded == s.log.discarded
      else
        && s'.actors[a].stage == Leaving(true) && c !in s'.queues && s'.pending == s.pending - |items|
        && s'.log.discarded == s.log.discarded + items && s'.log.started == s.log.started && s'.contexts == s.contexts
  {
  }

  /** A finished turn is recorded with the cause in its context, and its goroutine goes on. */
  lemma FinishExactly(s: State, limits: Limits, a: nat)
    requires Enabled(s, limits, Finish(a))
    ensures var s', t := Step(s, limits, Finish(a)), s.actors[a].stage.turn;
      && s'.log.finished == s.log.finished + [(t, s.contexts[t.serial])] && t.serial !in s'.contexts
      && s'.actors[a].stage == Between && s'.queues[s.actors[a].conversationID].current == None
      && s'.queues[s.actors[a].conversationID].items == s.queues[s.actors[a].conversationID].items
  {
  }

  /** Shut down before it got a slot, a goroutine drops its queue; on leaving it gives back a slot that it held, and is gone. */
  lemma LeavingExactly(s: State, limits: Limits, a: nat)
    ensures Enabled(s, limits, DiscardQueue(a)) ==>
      var s', c := Step(s, limits, DiscardQueue(a)), s.actors[a].conversationID;
      && s'.actors[a].stage == Leaving(false) && c !in s'.queues && s'.pending == s.pending - |s.queues[c].items|
      && s'.log.discarded == s.log.discarded + s.queues[c].items && s'.slotsUsed == s.slotsUsed
    ensures Enabled(s, limits, Leave(a)) ==>
      var s' := Step(s, limits, Leave(a));
      a !in s'.actors && s'.slotsUsed == s.slotsUsed - (if s.actors[a].stage == Leaving(true) then 1 else 0)
  {
  }

  /** A waiting goroutine can take a slot exactly while fewer goroutines hold one than there are. */
  lemma SlotsAreGivenExactly(s: State, limits: Limits, a: nat)
    requires ValidLimits(limits) && Reachable(limits, s) && a in s.actors && s.actors[a].stage == Stage.Waiting
    ensures Enabled(s, limits, AcquireSlot(a)) <==> Sum(SlotUses(s.actors)) < limits.slots
    ensures Enabled(s, limits, AcquireSlot(a)) ==> Step(s, limits, AcquireSlot(a)).actors[a].stage == Between
  {
    ReachableInv(s, limits);
  }
}
