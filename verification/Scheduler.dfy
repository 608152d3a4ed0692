/** The scheduler's mutex sections, in place, each refining one event of the state machine (scheduler.go). */
module Scheduler {
  import opened Common
  import opened SchedulerModel
  import opened SchedulerInvariants
  import opened SchedulerSteps
  import opened SchedulerTheorems
  import Ingress

  class ConversationQueue {
    var items: seq<Turn>
    var running: bool
    var controlQueued: bool
    var currentCancel: Option<nat>
    ghost var actor: nat

    constructor ()
      ensures View() == Queue([], false, false, None, 0)
    {
      items, running, controlQueued, currentCancel, actor := [], false, false, None, 0;
    }

    ghost function View(): Queue reads this { Queue(items, running, controlQueued, currentCancel, actor) }

    method Push(turn: Turn, ghost started: nat)
      modifies this
      ensures View() == PushTurn(old(View()), turn, started)
    {
      if turn.priority {
        items := [turn] + items;
        controlQueued := true;
      } else {
        items := items + [turn];
      }
      if !running {
        running := true;
        actor := started;
      }
    }

    method Pop() returns (turn: Turn)
      requires items != []
      modifies this
      ensures View() == PopTurn(old(View())) && turn == old(items)[0]
    {
      turn := items[0];
      items := items[1..];
      if turn.priority { controlQueued := false; }
      currentCancel := Some(turn.serial);
    }
  }

  class ConversationScheduler {
    ghost var state: State  // the state machine's view of this object and its goroutines
    ghost var held: map<nat, ConversationQueue>  // the queue that each goroutine was started with

    var accepting: bool
    var queues: map<string, ConversationQueue>
    var pending: int
    var slots: int
    var lifecycleDone: bool
    var contexts: map<nat, Option<Cause>>
    var next: nat
    const limits: Limits
    const trace: Ingress.TraceStore

    constructor (limits: Limits, trace: Ingress.TraceStore)
      requires ValidLimits(limits) && trace.retention == limits.retention
      ensures Valid() && state == Initial(trace.View()) && this.limits == limits && this.trace == trace
    {
      accepting, queues, pending, slots, lifecycleDone := true, map[], 0, 0, false;
      contexts, next, held := map[], 0, map[];
      this.limits := limits;
      this.trace := trace;
      state := Initial(trace.View());
      assert Run(Initial(trace.View()), limits, [], Initial(trace.View()));
    }

    ghost predicate Valid() reads this, trace, queues.Values {
      && ValidLimits(limits) && Reachable(limits, state)
      && Agrees(state) && Represents(state.queues) && Holding(state.actors)
    }

    /** The fields outside the queues say what `s` says. */
    ghost predicate Agrees(s: State) reads this, trace {
      && s.accepting == accepting && s.pending == pending && s.slotsUsed == slots
      && s.lifecycleDone == lifecycleDone && s.contexts == contexts && s.next == next
      && trace.View() == s.ledger && trace.retention == limits.retention
    }

    /** The queue objects say what `views` says, and no two conversations share one. */
    ghost predicate Represents(views: map<string, Queue>) reads this`queues, queues.Values {
      && views.Keys == queues.Keys
      && (forall c :: c in queues ==> queues[c].View() == views[c])
      && (forall c, d :: c in queues && d in queues && queues[c] == queues[d] ==> c == d)
    }

    /** The queue that a live goroutine was started with is still the mapped one of its conversation. */
    ghost predicate Holding(actors: map<nat, Actor>) reads this`queues, this`held {
      forall a :: a in actors && Live(actors[a]) ==>
        a in held && actors[a].conversationID in queues && held[a] == queues[actors[a].conversationID]
    }

    /** Goroutine `a` was started for this conversation with this queue. */
    ghost predicate StartedWith(a: nat, conversationID: string, queue: ConversationQueue) reads this`state, this`held {
      a in state.actors && state.actors[a].conversationID == conversationID && a in held && held[a] == queue
    }

    method Submit(r: Request, now: int, fault: Ingress.Fault) returns (verdict: Verdict)
      requires Valid()
      modifies this, trace, if r.conversationID in queues then {queues[r.conversationID]} else {}
      ensures Valid()
      ensures (state, verdict) == SubmitStep(old(state), limits, r, now, fault)
    {
      StaysReachable(limits, state, Event.Submit(r, now, fault));
      verdict := CheckAdmission(r);
      if verdict != Accepted { return; }
      if !r.retryable {
        var outcome := ClaimFor(r, now, fault);
        if outcome == Ingress.Failed { return ClaimFailed; }
        if outcome == Ingress.Duplicate { return Verdict.Duplicate; }
      }
      Admit(r);
    }

    method ClaimFor(r: Request, now: int, fault: Ingress.Fault) returns (outcome: Ingress.Outcome)
      requires Agrees(state) && Represents(state.queues) && Holding(state.actors)
      modifies this`state, trace
      ensures Agrees(state) && Represents(state.queues) && Holding(state.actors)
      ensures (state, outcome) == Claimed(old(state), limits, r, now, fault)
    {
      outcome := trace.ClaimIngress(r.source, r.eventID, now, fault);
      state := Claimed(state, limits, r, now, fault).0;
    }

    /** The refusals before the claim. */
    method CheckAdmission(r: Request) returns (verdict: Verdict)
      requires Agrees(state) && Represents(state.queues)
      ensures verdict == Admission(state, limits, r)
    {
      if !ValidRequest(r) { return Invalid; }
      if !accepting { return Closed; }
      var queue: ConversationQueue? := if r.conversationID in queues then queues[r.conversationID] else null;
      var bypass := r.priority && queue != null && (queue.currentCancel.Some? || |queue.items| > 0) && !queue.controlQueued;
      if pending >= limits.maxPending && !bypass { return PendingLimit; }
      var depth := 0;
      if queue != null { depth := |queue.items|; }
      if depth >= limits.maxConversationPending && !bypass { return ConversationLimit; }
      verdict := Accepted;
    }

    ghost function QueueOf(views: map<string, Queue>, conversationID: string): Queue {
      if conversationID in views then views[conversationID] else EMPTY_QUEUE
    }

    /** The conversation's queue, made on demand. */
    method FindOrCreate(conversationID: string, ghost views: map<string, Queue>, ghost actors: map<nat, Actor>)
      returns (queue: ConversationQueue)
      requires Represents(views) && Holding(actors)
      modifies this`queues
      ensures conversationID in queues && queues[conversationID] == queue
      ensures if conversationID in old(queues) then queue == old(queues)[conversationID] else fresh(queue)
      ensures Represents(views[conversationID := QueueOf(views, conversationID)]) && Holding(actors)
    {
      if conversationID in queues {
        assert views[conversationID := views[conversationID]] == views;
        return queues[conversationID];
      }
      queue := new ConversationQueue();
      queues := queues[conversationID := queue];
    }

    /** The goroutine that is started next works on this queue. */
    method HandTo(conversationID: string, queue: ConversationQueue, ghost actors: map<nat, Actor>)
      requires Holding(actors) && conversationID in queues && queues[conversationID] == queue
      modifies this`held
      ensures Holding(actors[next := Actor(conversationID, Waiting)])
    {
      held := held[next := queue];
    }

    /** A turn enters its conversation's queue; a goroutine started for it is handed the queue. */
    method PushInto(turn: Turn, ghost views: map<string, Queue>, ghost actors: map<nat, Actor>) returns (current: Option<nat>)
      requires Represents(views) && Holding(actors)
      modifies this`queues, this`held, if turn.conversationID in queues then {queues[turn.conversationID]} else {}
      ensures var q := QueueOf(views, turn.conversationID);
        current == q.current && Represents(views[turn.conversationID := PushTurn(q, turn, next)])
        && Holding(if q.running then actors else actors[next := Actor(turn.conversationID, Waiting)])
    {
      var queue := FindOrCreate(turn.conversationID, views, actors);
      current := queue.currentCancel;
      if !queue.running { HandTo(turn.conversationID, queue, actors); }
      ghost var c, q := turn.conversationID, QueueOf(views, turn.conversationID);
      PushOnto(queue, turn, views[c := q]);
      assert views[c := q][c := PushTurn(q, turn, next)] == views[c := PushTurn(q, turn, next)];
    }

    method PushOnto(queue: ConversationQueue, turn: Turn, ghost views: map<string, Queue>)
      requires Represents(views) && turn.conversationID in queues && queues[turn.conversationID] == queue
      modifies queue
      ensures Represents(views[turn.conversationID := PushTurn(views[turn.conversationID], turn, next)])
    {
      queue.Push(turn, next);
    }

    method PopFrom(conversationID: string, queue: ConversationQueue, ghost views: map<string, Queue>) returns (turn: Turn)
      requires Represents(views) && conversationID in queues && queues[conversationID] == queue && queue.items != []
      modifies queue
      ensures turn == views[conversationID].items[0]
      ensures Represents(views[conversationID := PopTurn(views[conversationID])])
    {
      turn := queue.Pop();
    }

    /** The part of Submit after the claim; a goroutine that it starts is handed the queue. */
    method Admit(r: Request)
      requires Agrees(state) && Represents(state.queues) && Holding(state.actors)
      modifies this, if r.conversationID in queues then {queues[r.conversationID]} else {}
      ensures Agrees(state) && Represents(state.queues) && Holding(state.actors) && state == Enqueue(old(state), r)
    {
      var turn := Turn(next, r.source, r.eventID, r.conversationID, r.priority, r.retryable);
      var current := PushInto(turn, state.queues, state.actors);
      CountAdmitted(r, current);
    }

    /** The fields that an admitted turn changes besides its queue. */
    method CountAdmitted(r: Request, current: Option<nat>)
      requires Agrees(state)
      requires current == QueueOf(state.queues, r.conversationID).current
      requires Holding(Enqueue(state, r).actors)
      modifies this`contexts, this`pending, this`next, this`state
      ensures Agrees(state) && Holding(state.actors) && state == Enqueue(old(state), r)
    {
      if r.priority && current.Some? { contexts := CancelContext(contexts, current.value, StoppedByUser); }
      pending := pending + 1;
      next := next + 1;
      state := Enqueue(state, r);
    }

    /** The gate's trace claims in the table that the scheduler uses, or the store prunes it for feedback. */
    method NoteUseElsewhere(key: Ingress.Key, use: Ingress.Access)
      requires Valid()
      modifies this`state, trace
      ensures Valid() && state == Step(old(state), limits, UseElsewhere(key, use))
    {
      StaysReachable(limits, state, UseElsewhere(key, use));
      if use.claims {
        var _ := trace.ClaimIngress(key.0, key.1, use.at, use.fault);
      } else {
        var _ := trace.RunPruneIfDue(use.at, use.fault);
      }
      state := Step(state, limits, UseElsewhere(key, use));
    }

    method CancelConversation(conversationID: string, cause: Cause) returns (found: bool)
      requires Valid()
      modifies this`contexts, this`state
      ensures Valid() && (state, found) == CancelStep(old(state), conversationID, cause)
    {
      StaysReachable(limits, state, Cancel(conversationID, cause));
      if conversationID !in queues || queues[conversationID].currentCancel == None { return false; }
      contexts := CancelContext(contexts, queues[conversationID].currentCancel.value, cause);
      state := CancelStep(state, conversationID, cause).0;
      found := true;
    }

    method StopAdmission()
      requires Valid()
      modifies this`accepting, this`state
      ensures Valid() && state == Step(old(state), limits, CloseAdmission)
    {
      StaysReachable(limits, state, CloseAdmission);
      accepting := false;
      state := Step(state, limits, CloseAdmission);
    }

    /** Shutdown's second phase, when its context ends before the drain does. */
    method StopLifecycle()
      requires Valid() && !accepting
      modifies this`lifecycleDone, this`contexts, this`state
      ensures Valid() && state == Step(old(state), limits, CancelLifecycle)
    {
      StaysReachable(limits, state, CancelLifecycle);
      lifecycleDone := true;
      contexts := CancelAll(contexts);
      state := Step(state, limits, CancelLifecycle);
    }

    method TakeSlot(ghost a: nat)
      requires Valid() && Enabled(state, limits, AcquireSlot(a))
      modifies this`slots, this`state
      ensures Valid() && state == Step(old(state), limits, AcquireSlot(a))
    {
      StaysReachable(limits, state, AcquireSlot(a));
      CountSlot(a);
    }

    method CountSlot(ghost a: nat)
      requires Agrees(state) && Holding(state.actors) && At(state, a, Waiting)
      modifies this`slots, this`state
      ensures Agrees(state) && Holding(state.actors)
      ensures state == old(state).(slotsUsed := old(state).slotsUsed + 1,
                                   actors := old(state).actors[a := old(state).actors[a].(stage := Between)])
    {
      slots := slots + 1;
      state := state.(slotsUsed := state.slotsUsed + 1, actors := state.actors[a := state.actors[a].(stage := Between)]);
    }

    method Discard(ghost a: nat, conversationID: string, queue: ConversationQueue)
      requires Valid() && Enabled(state, limits, DiscardQueue(a)) && StartedWith(a, conversationID, queue)
      modifies this, queue
      ensures Valid() && state == Step(old(state), limits, DiscardQueue(a))
    {
      StaysReachable(limits, state, DiscardQueue(a));
      Drop(a, conversationID, queue, Leaving(false));
    }

    method Drop(ghost a: nat, conversationID: string, queue: ConversationQueue, ghost stage: Stage)
      requires Valid() && StartedWith(a, conversationID, queue) && Live(state.actors[a]) && stage.Leaving?
      modifies this`pending, this`queues, this`state, queue
      ensures Agrees(state) && Represents(state.queues) && Holding(state.actors)
      ensures old(conversationID in state.queues) && state == DropQueue(old(state), a, stage)
    {
      OneActorPerConversation(state, limits, a);
      var dropped := |queue.items|;
      Unmap(a, conversationID, queue, stage);
      CountDropped(a, dropped, stage);
    }

    /** The fields that a dropped queue changes besides the map. */
    method CountDropped(ghost a: nat, dropped: nat, ghost stage: Stage)
      requires Agrees(state) && a in state.actors && state.actors[a].conversationID in state.queues
      requires dropped == |state.queues[state.actors[a].conversationID].items|
      modifies this`pending, this`state
      ensures Agrees(state) && state == DropQueue(old(state), a, stage)
    {
      pending := pending - dropped;
      state := DropQueue(state, a, stage);
    }

    /** The queue leaves the map; the goroutine is the only one that held it. */
    method Unmap(ghost a: nat, conversationID: string, queue: ConversationQueue, ghost stage: Stage)
      requires Represents(state.queues) && Holding(state.actors) && stage.Leaving?
      requires conversationID in queues && queues[conversationID] == queue
      requires forall b :: b in state.actors && b != a && Live(state.actors[b]) ==> state.actors[b].conversationID != conversationID
      modifies this`queues, queue
      ensures Represents(state.queues - {conversationID}) && Holding(state.actors[a := Actor(conversationID, stage)])
    {
      queue.items := [];
      queue.running := false;
      queues := queues - {conversationID};
    }

    method TakeTurn(ghost a: nat, conversationID: string, queue: ConversationQueue) returns (turn: Option<Turn>)
      requires Valid() && Enabled(state, limits, NextTurn(a)) && StartedWith(a, conversationID, queue)
      modifies this, queue
      ensures Valid() && state == Step(old(state), limits, NextTurn(a))
      ensures turn == if RunningActor(state, a) then Some(state.actors[a].stage.turn) else None
    {
      StaysReachable(limits, state, NextTurn(a));
      if lifecycleDone || queue.items == [] {
        Drop(a, conversationID, queue, Leaving(true));
        return None;
      }
      var t := StartHead(a, conversationID, queue);
      turn := Some(t);
    }

    method StartHead(ghost a: nat, conversationID: string, queue: ConversationQueue) returns (turn: Turn)
      requires Agrees(state) && Represents(state.queues) && Holding(state.actors)
      requires StartedWith(a, conversationID, queue) && Live(state.actors[a]) && queue.items != []
      modifies this`contexts, this`pending, this`state, queue
      ensures Agrees(state) && Represents(state.queues) && Holding(state.actors)
      ensures old(conversationID in state.queues && state.queues[conversationID].items != [])
      ensures state == StartTurn(old(state), a) && turn == state.actors[a].stage.turn
    {
      turn := PopFrom(conversationID, queue, state.queues);
      CountStarted(a, turn);
    }

    /** The fields that a starting turn changes besides its queue. */
    method CountStarted(ghost a: nat, turn: Turn)
      requires Agrees(state) && a in state.actors && state.actors[a].conversationID in state.queues
      requires var items := state.queues[state.actors[a].conversationID].items; items != [] && items[0] == turn
      requires Live(state.actors[a]) && Holding(state.actors)
      modifies this`contexts, this`pending, this`state
      ensures Agrees(state) && Holding(state.actors) && state == StartTurn(old(state), a)
    {
      pending := pending - 1;
      contexts := contexts[turn.serial := None];
      state := StartTurn(state, a);
    }

    method FinishTurn(ghost a: nat, conversationID: string, queue: ConversationQueue, turn: Turn) returns (cause: Option<Cause>)
      requires Valid() && Enabled(state, limits, Finish(a)) && StartedWith(a, conversationID, queue)
      requires state.actors[a].stage == Running(turn)
      modifies this, queue
      ensures Valid() && state == Step(old(state), limits, Finish(a))
      ensures state.log.finished == old(state.log.finished) + [(turn, cause)]
    {
      StaysReachable(limits, state, Finish(a));
      cause := contexts[turn.serial];
      EndCurrent(conversationID, queue, state.queues);
      CountFinished(a, turn);
    }

    /** The fields that an ending turn changes besides its queue. */
    method CountFinished(ghost a: nat, turn: Turn)
      requires Agrees(state) && At(state, a, Running(turn)) && state.actors[a].conversationID in state.queues
      requires turn.serial in state.contexts && Holding(state.actors)
      modifies this`contexts, this`state
      ensures Agrees(state) && Holding(state.actors) && state == FinishStep(old(state), a)
    {
      contexts := contexts - {turn.serial};
      state := FinishStep(state, a);
    }

    method EndCurrent(conversationID: string, queue: ConversationQueue, ghost views: map<string, Queue>)
      requires Represents(views) && conversationID in queues && queues[conversationID] == queue
      modifies queue`currentCancel
      ensures Represents(views[conversationID := views[conversationID].(current := None)])
    {
      queue.currentCancel := None;
    }

    method ReleaseSlot(ghost a: nat, holdsSlot: bool)
      requires Valid() && Enabled(state, limits, Leave(a)) && state.actors[a].stage == Leaving(holdsSlot)
      modifies this`slots, this`state
      ensures Valid() && state == Step(old(state), limits, Leave(a))
    {
      StaysReachable(limits, state, Leave(a));
      if holdsSlot { slots := slots - 1; }
      state := Step(state, limits, Leave(a));
    }
  }
}
