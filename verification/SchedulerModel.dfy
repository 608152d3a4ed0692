/** The conversation scheduler as a state machine: one event per mutex section, slot operation or cancellation. */
module SchedulerModel {
  import opened Common
  import Ingress

  datatype Cause = StoppedByUser | DeadlineExceeded | ShuttingDown | Cancelled(reason: string)

  datatype Turn = Turn(serial: nat, source: string, eventID: string, conversationID: string,
                       priority: bool, retryable: bool)

  /** `actor` names the goroutine started for the queue; `current` the turn whose cancel function is stored. */
  datatype Queue = Queue(items: seq<Turn>, running: bool, controlQueued: bool, current: Option<nat>, actor: nat)

  /** Where a conversation goroutine stands between two atomic steps. */
  datatype Stage = Waiting | Between | Running(turn: Turn) | Leaving(holdsSlot: bool)

  datatype Actor = Actor(conversationID: string, stage: Stage)

  datatype Limits = Limits(maxPending: int, maxConversationPending: int, slots: int, retention: nat)

  /** Everything that has happened so far; the code keeps none of it. `claims` mark the uses of the claim table. */
  datatype History = History(accepted: seq<Turn>, started: seq<Turn>, discarded: seq<Turn>,
                             finished: seq<(Turn, Option<Cause>)>, grants: Ingress.Grants, claims: seq<Ingress.Mark>)

  datatype State = State(accepting: bool, queues: map<string, Queue>, pending: int, slotsUsed: int,
                         lifecycleDone: bool, contexts: map<nat, Option<Cause>>, ledger: Ingress.Ledger,
                         actors: map<nat, Actor>, next: nat, log: History)

  datatype Request = Request(source: string, eventID: string, conversationID: string,
                             priority: bool, retryable: bool, hasRun: bool)

  datatype Verdict = Invalid | Closed | PendingLimit | ConversationLimit | ClaimFailed | Duplicate | Accepted

  /** UseElsewhere is a claim of the message gate's trace or a pruning for feedback, in the same table without the lock. */
  datatype Event =
    | Submit(request: Request, now: int, fault: Ingress.Fault)
    | UseElsewhere(key: Ingress.Key, use: Ingress.Access)
    | Cancel(conversationID: string, cause: Cause)
    | TimerFires(serial: nat)
    | CloseAdmission
    | CancelLifecycle
    | AcquireSlot(actor: nat)
    | DiscardQueue(actor: nat)
    | NextTurn(actor: nat)
    | Finish(actor: nat)
    | Leave(actor: nat)

  /** A new scheduler on a claim table that earlier processes may have filled. */
  function Initial(ledger: Ingress.Ledger): State {
    State(true, map[], 0, 0, false, map[], ledger, map[], 0, History([], [], [], [], [], []))
  }

  /** A context keeps the first cause it is given. */
  function CancelContext(contexts: map<nat, Option<Cause>>, k: nat, cause: Cause): map<nat, Option<Cause>> {
    if k in contexts && contexts[k].None? then contexts[k := Some(cause)] else contexts
  }

  function CancelAll(contexts: map<nat, Option<Cause>>): map<nat, Option<Cause>> {
    map k | k in contexts :: if contexts[k].None? then Some(ShuttingDown) else contexts[k]
  }

  predicate ValidRequest(r: Request) {
    r.source != "" && r.eventID != "" && r.conversationID != "" && r.hasRun
  }

  predicate PriorityBypass(s: State, r: Request) {
    && r.priority && r.conversationID in s.queues
    && var q := s.queues[r.conversationID];
      (q.current.Some? || q.items != []) && !q.controlQueued
  }

  /** The refusals that Submit decides before it claims the event. */
  function Admission(s: State, limits: Limits, r: Request): Verdict {
    var depth := if r.conversationID in s.queues then |s.queues[r.conversationID].items| else 0;
    if !ValidRequest(r) then Invalid
    else if !s.accepting then Closed
    else if s.pending >= limits.maxPending && !PriorityBypass(s, r) then PendingLimit
    else if depth >= limits.maxConversationPending && !PriorityBypass(s, r) then ConversationLimit
    else Accepted
  }

  function NewTurn(s: State, r: Request): Turn {
    Turn(s.next, r.source, r.eventID, r.conversationID, r.priority, r.retryable)
  }

  /** A turn enters a queue; a stopped queue gets the goroutine `actor`. */
  function PushTurn(q: Queue, t: Turn, actor: nat): Queue {
    Queue(if t.priority then [t] + q.items else q.items + [t], true, q.controlQueued || t.priority, q.current,
          if q.running then q.actor else actor)
  }

  const EMPTY_QUEUE := Queue([], false, false, None, 0)

  /** Submit's last part: the turn enters its queue, a stop cancels the running turn, a missing actor is started. */
  function Enqueue(s: State, r: Request): State {
    var t, c := NewTurn(s, r), r.conversationID;
    var q := if c in s.queues then s.queues[c] else EMPTY_QUEUE;
    s.(queues := s.queues[c := PushTurn(q, t, s.next)], pending := s.pending + 1,
       contexts := if t.priority && q.current.Some? then CancelContext(s.contexts, q.current.value, StoppedByUser)
                   else s.contexts,
       actors := if q.running then s.actors else s.actors[s.next := Actor(c, Waiting)],
       next := s.next + 1, log := s.log.(accepted := s.log.accepted + [t]))
  }

  function Claimed(s: State, limits: Limits, r: Request, now: int, fault: Ingress.Fault): (State, Ingress.Outcome) {
    var (ledger, o) := Ingress.Claim(s.ledger, limits.retention, r.source, r.eventID, now, fault);
    (s.(ledger := ledger,
        log := s.log.(grants := Ingress.Granted(s.log.grants, r.source, r.eventID, now, o),
                      claims := s.log.claims + [Ingress.MarkOf(s.ledger, (r.source, r.eventID), Ingress.Access(now, fault, true))])), o)
  }

  function SubmitStep(s: State, limits: Limits, r: Request, now: int, fault: Ingress.Fault): (State, Verdict) {
    var v := Admission(s, limits, r);
    if v != Accepted then (s, v)
    else if r.retryable then (Enqueue(s, r), Accepted)
    else
      var (s', o) := Claimed(s, limits, r, now, fault);
      match o
      case Failed => (s', ClaimFailed)
      case Duplicate => (s', Verdict.Duplicate)
      case Claimed => (Enqueue(s', r), Accepted)
  }

  function CancelStep(s: State, c: string, cause: Cause): (State, bool) {
    if c in s.queues && s.queues[c].current.Some?
    then (s.(contexts := CancelContext(s.contexts, s.queues[c].current.value, cause)), true)
    else (s, false)
  }

  /** The goroutine `a` drops its queue with everything in it and goes to `stage`. */
  function DropQueue(s: State, a: nat, stage: Stage): State
    requires a in s.actors && s.actors[a].conversationID in s.queues
  {
    var c := s.actors[a].conversationID;
    var q := s.queues[c];
    s.(pending := s.pending - |q.items|, queues := s.queues - {c},
       actors := s.actors[a := s.actors[a].(stage := stage)],
       log := s.log.(discarded := s.log.discarded + q.items))
  }

  /** The head of a queue is taken and becomes the current turn. */
  function PopTurn(q: Queue): Queue
    requires q.items != []
  {
    q.(items := q.items[1..], controlQueued := q.controlQueued && !q.items[0].priority, current := Some(q.items[0].serial))
  }

  function StartTurn(s: State, a: nat): State
    requires a in s.actors && s.actors[a].conversationID in s.queues
    requires s.queues[s.actors[a].conversationID].items != []
  {
    var c := s.actors[a].conversationID;
    var q := s.queues[c];
    var t := q.items[0];
    s.(pending := s.pending - 1, queues := s.queues[c := PopTurn(q)], contexts := s.contexts[t.serial := None],
       actors := s.actors[a := s.actors[a].(stage := Running(t))],
       log := s.log.(started := s.log.started + [t]))
  }

  function NextTurnStep(s: State, a: nat): State
    requires a in s.actors && s.actors[a].conversationID in s.queues
  {
    if s.lifecycleDone || s.queues[s.actors[a].conversationID].items == [] then DropQueue(s, a, Leaving(true))
    else StartTurn(s, a)
  }

  function FinishStep(s: State, a: nat): State
    requires a in s.actors && s.actors[a].stage.Running? && s.actors[a].conversationID in s.queues
    requires s.actors[a].stage.turn.serial in s.contexts
  {
    var c, t := s.actors[a].conversationID, s.actors[a].stage.turn;
    s.(queues := s.queues[c := s.queues[c].(current := None)], contexts := s.contexts - {t.serial},
       actors := s.actors[a := s.actors[a].(stage := Between)],
       log := s.log.(finished := s.log.finished + [(t, s.contexts[t.serial])]))
  }

  predicate At(s: State, a: nat, stage: Stage) {
    a in s.actors && s.actors[a].stage == stage
  }

  predicate RunningActor(s: State, a: nat) {
    a in s.actors && s.actors[a].stage.Running?
  }

  /** The events that can happen in `s`. The environment's calls always can. */
  predicate Enabled(s: State, limits: Limits, e: Event) {
    match e
    case Submit(_, _, _) => true
    case UseElsewhere(_, _) => true
    case Cancel(_, _) => true
    case TimerFires(k) => k in s.contexts
    case CloseAdmission => true
    case CancelLifecycle => !s.accepting
    case AcquireSlot(a) => At(s, a, Waiting) && s.slotsUsed < limits.slots
    case DiscardQueue(a) => At(s, a, Waiting) && s.lifecycleDone && s.actors[a].conversationID in s.queues
    case NextTurn(a) => At(s, a, Between) && s.actors[a].conversationID in s.queues
    case Finish(a) => RunningActor(s, a) && s.actors[a].conversationID in s.queues
                      && s.actors[a].stage.turn.serial in s.contexts
    case Leave(a) => a in s.actors && s.actors[a].stage.Leaving?
  }

  function Step(s: State, limits: Limits, e: Event): State
    requires Enabled(s, limits, e)
  {
    match e
    case Submit(r, now, fault) => SubmitStep(s, limits, r, now, fault).0
    case UseElsewhere(key, use) =>
      s.(ledger := Ingress.Accessed(s.ledger, limits.retention, key, use).0,
         log := s.log.(claims := s.log.claims + [Ingress.MarkOf(s.ledger, key, use)]))
    case Cancel(c, cause) => CancelStep(s, c, cause).0
    case TimerFires(k) => s.(contexts := CancelContext(s.contexts, k, DeadlineExceeded))
    case CloseAdmission => s.(accepting := false)
    case CancelLifecycle => s.(lifecycleDone := true, contexts := CancelAll(s.contexts))
    case AcquireSlot(a) =>
      s.(slotsUsed := s.slotsUsed + 1, actors := s.actors[a := s.actors[a].(stage := Between)])
    case DiscardQueue(a) => DropQueue(s, a, Leaving(false))
    case NextTurn(a) => NextTurnStep(s, a)
    case Finish(a) => FinishStep(s, a)
    case Leave(a) =>
      s.(slotsUsed := if s.actors[a].stage.holdsSlot then s.slotsUsed - 1 else s.slotsUsed, actors := s.actors - {a})
  }

  /** A run: every event was possible when it happened. */
  ghost predicate Run(s: State, limits: Limits, events: seq<Event>, s': State)
    decreases |events|
  {
    if events == [] then s' == s
    else Enabled(s, limits, events[0]) && Run(Step(s, limits, events[0]), limits, events[1..], s')
  }

  ghost predicate Reachable(limits: Limits, s: State) {
    exists ledger, events :: Run(Initial(ledger), limits, events, s)
  }
}
