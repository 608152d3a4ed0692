/** Requests in flight on one connection, as a state machine over their atomic steps (client.go). */
module RequestModel {
  import opened Common

  /** What a request can find in its channel; a payload carries the echo that the server sent back. */
  datatype Reply = Payload(echo: nat, body: string) | ConnectionClosed(error: string)

  datatype Outcome = Answered(reply: Reply) | Refused(error: string) | GaveUp

  /** Where a request's own goroutine is. `Leaving` has failed to write, or its context ended, and is yet to withdraw. */
  datatype Phase = Drawn | Writing | Waiting | Leaving | Returned(outcome: Outcome)

  /** `box` is the one-slot channel, `sends` counts what was ever sent on it. */
  datatype Request = Request(phase: Phase, box: seq<Reply>, sends: nat)

  /** The course of finish: claimed once, done closed, draining under the lock, over. */
  datatype Closing = Open | Claimed | Signalled | Draining | Over

  datatype State = State(
    requests: map<nat, Request>,
    issued: nat,
    pending: set<nat>,
    carrying: Option<Reply>,  // taken by the reader and not yet sent
    closing: Closing,
    readErr: Option<string>)

  datatype Event =
    | Draw
    | Register(echo: nat)
    | Written(echo: nat)
    | Abandon(echo: nat)
    | Withdraw(echo: nat)
    | Receive(echo: nat)
    | Take(echo: nat, body: string)
    | Put
    | ClaimFinish(error: string)
    | CloseDone
    | LockPending
    | FailOne(echo: nat)
    | UnlockPending

  const INITIAL_STATE := State(map[], 0, {}, None, Open, None)

  predicate Done(s: State) { s.closing.Signalled? || s.closing.Draining? || s.closing.Over? }

  predicate Unlocked(s: State) { !s.closing.Draining? }

  predicate In(s: State, e: nat, p: Phase) { e in s.requests && s.requests[e].phase == p }

  predicate Enabled(s: State, event: Event) {
    match event
    case Draw => true
    case Register(e) => In(s, e, Drawn) && Unlocked(s) && (Done(s) ==> s.readErr.Some?)
    case Written(e) => In(s, e, Writing)
    case Abandon(e) => In(s, e, Writing) || In(s, e, Waiting)
    case Withdraw(e) => In(s, e, Leaving) && Unlocked(s)
    case Receive(e) => In(s, e, Waiting) && s.requests[e].box != []
    case Take(_, _) => s.carrying.None? && Unlocked(s)
    case Put => s.carrying.Some? && s.carrying.value.Payload? && s.carrying.value.echo in s.requests
    case ClaimFinish(_) => s.closing.Open?
    case CloseDone => s.closing.Claimed?
    case LockPending => s.closing.Signalled?
    case FailOne(e) => s.closing.Draining? && e in s.pending && e in s.requests && s.readErr.Some?
    case UnlockPending => s.closing.Draining? && s.pending == {}
  }

  function Moved(s: State, e: nat, p: Phase): State
    requires e in s.requests
  {
    s.(requests := s.requests[e := s.requests[e].(phase := p)])
  }

  function Sent(s: State, e: nat, reply: Reply): State
    requires e in s.requests
  {
    var r := s.requests[e];
    s.(requests := s.requests[e := r.(box := r.box + [reply], sends := r.sends + 1)])
  }

  function RegisterStep(s: State, e: nat): State
    requires Enabled(s, Register(e))
  {
    if Done(s) then Moved(s, e, Returned(Refused(s.readErr.value)))
    else Moved(s, e, Writing).(pending := s.pending + {e})
  }

  function ReceiveStep(s: State, e: nat): State
    requires Enabled(s, Receive(e))
  {
    var r := s.requests[e];
    s.(requests := s.requests[e := r.(phase := Returned(Answered(r.box[0])), box := r.box[1..])])
  }

  /** A payload with an unknown echo is no response; it goes to the event stream. */
  function TakeStep(s: State, e: nat, body: string): State {
    if e in s.pending then s.(pending := s.pending - {e}, carrying := Some(Payload(e, body))) else s
  }

  function Step(s: State, event: Event): State
    requires Enabled(s, event)
  {
    match event
    case Draw => s.(issued := s.issued + 1, requests := s.requests[s.issued + 1 := Request(Drawn, [], 0)])
    case Register(e) => RegisterStep(s, e)
    case Written(e) => Moved(s, e, Waiting)
    case Abandon(e) => Moved(s, e, Leaving)
    case Withdraw(e) => Moved(s, e, Returned(GaveUp)).(pending := s.pending - {e})
    case Receive(e) => ReceiveStep(s, e)
    case Take(e, body) => TakeStep(s, e, body)
    case Put => Sent(s, s.carrying.value.echo, s.carrying.value).(carrying := None)
    case ClaimFinish(error) => s.(closing := Claimed, readErr := Some(error))
    case CloseDone => s.(closing := Signalled)
    case LockPending => s.(closing := Draining)
    case FailOne(e) => Sent(s, e, ConnectionClosed(s.readErr.value)).(pending := s.pending - {e})
    case UnlockPending => s.(closing := Over)
  }

  ghost predicate Run(s: State, events: seq<Event>, s': State)
    decreases |events|
  {
    if events == [] then s' == s else Enabled(s, events[0]) && Run(Step(s, events[0]), events[1..], s')
  }

  ghost predicate Reachable(s: State) { exists events :: Run(INITIAL_STATE, events, s) }

  // ---- The invariant ----

  predicate Carries(s: State, e: nat) { s.carrying.Some? && s.carrying.value.Payload? && s.carrying.value.echo == e }

  /** A reply that request `e` may see: a payload with its own echo, or the error the connection closed with. */
  predicate Fitting(s: State, e: nat, reply: Reply) {
    match reply
    case Payload(echo, _) => echo == e
    case ConnectionClosed(error) => Done(s) && s.readErr == Some(error)
  }

  predicate Sound(s: State, e: nat, r: Request) {
    && r.sends <= 1
    && r.sends == |r.box| + (if r.phase.Returned? && r.phase.outcome.Answered? then 1 else 0)
    && (e in s.pending || Carries(s, e) ==> r.sends == 0 && !r.phase.Drawn?)
    && (e in s.pending ==> !Carries(s, e) && !r.phase.Returned?)
    && (r.phase.Drawn? ==> r.sends == 0)
    && (r.phase.Writing? || r.phase.Waiting? ==> e in s.pending || Carries(s, e) || r.sends == 1)
    && (r.box != [] ==> Fitting(s, e, r.box[0]))
    && (r.phase.Returned? ==> match r.phase.outcome
        case Answered(reply) => Fitting(s, e, reply)
        case Refused(error) => Done(s) && s.readErr == Some(error)
        case GaveUp => true)
  }

  ghost predicate Inv(s: State) {
    && (forall e :: e in s.requests ==> 0 < e <= s.issued && Sound(s, e, s.requests[e]))
    && s.pending <= s.requests.Keys
    && (s.carrying.Some? ==> s.carrying.value.Payload? && s.carrying.value.echo in s.requests)
    && (s.closing.Open? <==> s.readErr.None?)
    && (s.closing.Over? ==> s.pending == {})
  }

  // The steps of the requests' own goroutines.

  lemma DrawKeepsInv(s: State)
    requires Inv(s)
    ensures Inv(Step(s, Draw))
  {
  }

  lemma RegisterKeepsInv(s: State, e: nat)
    requires Inv(s) && Enabled(s, Register(e))
    ensures Inv(RegisterStep(s, e))
  {
  }

  /** A request goes on within the client: its write is done, or it gives up. */
  lemma MoveKeepsInv(s: State, e: nat, p: Phase)
    requires Inv(s) && e in s.requests
    requires (In(s, e, Writing) && p == Waiting) || ((In(s, e, Writing) || In(s, e, Waiting)) && p == Leaving)
    ensures Inv(Moved(s, e, p))
  {
  }

  lemma WithdrawKeepsInv(s: State, e: nat)
    requires Inv(s) && Enabled(s, Withdraw(e))
    ensures Inv(Step(s, Withdraw(e)))
  {
  }

  lemma ReceiveKeepsInv(s: State, e: nat)
    requires Inv(s) && Enabled(s, Receive(e))
    ensures Inv(ReceiveStep(s, e))
  {
  }

  // The steps of the reader, and the sends of the drain.

  lemma TakeKeepsInv(s: State, e: nat, body: string)
    requires Inv(s) && Enabled(s, Take(e, body))
    ensures Inv(TakeStep(s, e, body))
  {
  }

  lemma PutKeepsInv(s: State)
    requires Inv(s) && Enabled(s, Put)
    ensures Inv(Step(s, Put))
  {
  }

  lemma FailKeepsInv(s: State, e: nat)
    requires Inv(s) && Enabled(s, FailOne(e))
    ensures Inv(Step(s, FailOne(e)))
  {
  }

  lemma ClosingKeepsInv(s: State, event: Event)
    requires Inv(s) && Enabled(s, event)
    requires event.ClaimFinish? || event.CloseDone? || event.LockPending? || event.UnlockPending?
    ensures Inv(Step(s, event))
  {
  }

  lemma StepKeepsInv(s: State, event: Event)
    requires Inv(s) && Enabled(s, event)
    ensures Inv(Step(s, event))
  {
    match event
    case Draw => DrawKeepsInv(s);
    case Register(e) => RegisterKeepsInv(s, e);
    case Written(e) => MoveKeepsInv(s, e, Waiting);
    case Abandon(e) => MoveKeepsInv(s, e, Leaving);
    case Withdraw(e) => WithdrawKeepsInv(s, e);
    case Receive(e) => ReceiveKeepsInv(s, e);
    case Take(e, body) => TakeKeepsInv(s, e, body);
    case Put => PutKeepsInv(s);
    case FailOne(e) => FailKeepsInv(s, e);
    case ClaimFinish(error) => ClosingKeepsInv(s, event);
    case CloseDone => ClosingKeepsInv(s, event);
    case LockPending => ClosingKeepsInv(s, event);
    case UnlockPending => ClosingKeepsInv(s, event);
  }

  lemma {:induction false} RunKeepsInv(s: State, events: seq<Event>, s': State)
    requires Inv(s) && Run(s, events, s')
    ensures Inv(s')
    decreases |events|
  {
    if events != [] {
      StepKeepsInv(s, events[0]);
      RunKeepsInv(Step(s, events[0]), events[1..], s');
    }
  }

  lemma ReachableInv(s: State)
    requires Reachable(s)
    ensures Inv(s)
  {
    var events :| Run(INITIAL_STATE, events, s);
    RunKeepsInv(INITIAL_STATE, events, s);
  }

  // ---- Safety ----

  /** A send finds the one slot free, under the lock or not: it never blocks. Over its life a channel carries one value. */
  lemma SendsNeverBlock(s: State, event: Event)
    requires Reachable(s) && Enabled(s, event)
    ensures event.Put? ==> s.requests[s.carrying.value.echo].box == []
    ensures event.FailOne? ==> s.requests[event.echo].box == []
    ensures forall e :: e in s.requests ==> s.requests[e].sends <= 1
  {
    ReachableInv(s);
  }

  /** A request that waits is still pending, or the reader holds its answer, or its channel does. */
  lemma NoRequestIsLost(s: State, e: nat)
    requires Reachable(s) && In(s, e, Waiting)
    ensures e in s.pending || Carries(s, e) || s.requests[e].box != []
    ensures s.closing.Over? ==> Carries(s, e) || s.requests[e].box != []
  {
    ReachableInv(s);
  }

  /** A request returns only its own payload, or the error that closed the connection. */
  lemma AnswersMatch(s: State, e: nat)
    requires Reachable(s) && e in s.requests && s.requests[e].phase.Returned?
    ensures match s.requests[e].phase.outcome
      case Answered(Payload(echo, _)) => echo == e
      case Answered(ConnectionClosed(error)) => Done(s) && s.readErr == Some(error)
      case Refused(error) => Done(s) && s.readErr == Some(error)
      case GaveUp => true
  {
    ReachableInv(s);
  }

  /** Once the drain is over nothing becomes pending again. */
  lemma {:induction false} NothingPendsAfterTheDrain(s: State, events: seq<Event>, s': State)
    requires Reachable(s) && s.closing.Over? && Run(s, events, s')
    ensures s'.closing.Over? && s'.pending == {} && s'.readErr == s.readErr
    decreases |events|
  {
    ReachableInv(s);
    if events != [] {
      Extend(s, events[0]);
      NothingPendsAfterTheDrain(Step(s, events[0]), events[1..], s');
    }
  }

  lemma {:induction false} RunExtends(s: State, events: seq<Event>, s': State, event: Event)
    requires Run(s, events, s') && Enabled(s', event)
    ensures Run(s, events + [event], Step(s', event))
    decreases |events|
  {
    if events != [] {
      RunExtends(Step(s, events[0]), events[1..], s', event);
      assert (events + [event])[1..] == events[1..] + [event];
    } else {
      assert events + [event] == [event];
      assert Run(Step(s, event), [event][1..], Step(s', event));
    }
  }

  lemma Extend(s: State, event: Event)
    requires Reachable(s) && Enabled(s, event)
    ensures Reachable(Step(s, event))
  {
    var events :| Run(INITIAL_STATE, events, s);
    RunExtends(INITIAL_STATE, events, s, event);
  }

  /** A returned request keeps its outcome. */
  lemma {:induction false} OutcomesStay(s: State, events: seq<Event>, s': State, e: nat)
    requires Reachable(s) && Run(s, events, s') && e in s.requests && s.requests[e].phase.Returned?
    ensures e in s'.requests && s'.requests[e].phase == s.requests[e].phase
    decreases |events|
  {
    ReachableInv(s);
    if events != [] {
      Extend(s, events[0]);
      OutcomesStay(Step(s, events[0]), events[1..], s', e);
    }
  }

  // ---- Progress once the connection closes ----

  function Weight(p: Phase): nat {
    match p case Drawn => 6 case Writing => 3 case Waiting => 2 case Leaving => 1 case Returned(_) => 0
  }

  function ClosingWeight(c: Closing): nat {
    match c case Open => 4 case Claimed => 3 case Signalled => 2 case Draining => 1 case Over => 0
  }

  ghost function Weights(s: State): map<nat, nat> { map e | e in s.requests :: Weight(s.requests[e].phase) }

  ghost function Measure(s: State): nat {
    Sum(Weights(s)) + 2 * |s.pending| + (if s.carrying.Some? then 1 else 0) + ClosingWeight(s.closing)
  }

  lemma WeightChanges(s: State, s': State, e: nat)
    requires e in s.requests && e in s'.requests
    requires s'.requests == s.requests[e := s'.requests[e]]
    ensures Sum(Weights(s')) + Weight(s.requests[e].phase) == Sum(Weights(s)) + Weight(s'.requests[e].phase)
  {
    assert Weights(s') == Weights(s)[e := Weight(s'.requests[e].phase)];
    SumUpdate(Weights(s), e, Weight(s'.requests[e].phase));
  }

  lemma MoveIsBounded(s: State, s': State, e: nat)
    requires e in s.requests && e in s'.requests && s'.requests == s.requests[e := s'.requests[e]]
    requires s'.carrying == s.carrying && s'.closing == s.closing
    requires s'.pending == s.pending || s'.pending == s.pending - {e}
    requires Weight(s'.requests[e].phase) < Weight(s.requests[e].phase)
      || (Weight(s'.requests[e].phase) == Weight(s.requests[e].phase) && e in s.pending && e !in s'.pending)
    ensures Measure(s') < Measure(s)
  {
    WeightChanges(s, s', e);
    if s'.pending != s.pending { assert |s.pending - {e}| < |s.pending|; }
  }

  lemma RegisterIsBounded(s: State, e: nat)
    requires Enabled(s, Register(e))
    ensures Measure(Step(s, Register(e))) < Measure(s)
  {
    WeightChanges(s, Step(s, Register(e)), e);
  }

  lemma ReaderIsBounded(s: State, event: Event)
    requires Enabled(s, event) && (event.Take? || event.Put?)
    ensures Step(s, event) == s || Measure(Step(s, event)) < Measure(s)
  {
    if event.Put? {
      WeightChanges(s, Step(s, event), s.carrying.value.echo);
    } else if event.echo in s.pending {
      assert Weights(Step(s, event)) == Weights(s);
      assert |s.pending - {event.echo}| < |s.pending|;
    }
  }

  /** Every step but a new request, or a payload that is no response, uses up some of a finite amount. */
  lemma StepsAreBounded(s: State, event: Event)
    requires Enabled(s, event) && !event.Draw?
    ensures Step(s, event) == s || Measure(Step(s, event)) < Measure(s)
    ensures Step(s, event) == s ==> event.Take?
  {
    var s' := Step(s, event);
    match event {
      case Draw =>
      case Register(e) => RegisterIsBounded(s, e);
      case Written(e) => MoveIsBounded(s, s', e);
      case Abandon(e) => MoveIsBounded(s, s', e);
      case Withdraw(e) => MoveIsBounded(s, s', e);
      case Receive(e) => MoveIsBounded(s, s', e);
      case FailOne(e) => MoveIsBounded(s, s', e);
      case Take(_, _) => ReaderIsBounded(s, event);
      case Put => ReaderIsBounded(s, event);
      case _ => assert Weights(s') == Weights(s);
    }
  }

  predicate Settled(s: State) { forall e :: e in s.requests ==> s.requests[e].phase.Returned? }

  /** Once the connection closes, some step of finish, of the reader or of a request is possible until all have returned. */
  lemma NeverStuck(s: State) returns (event: Event)
    requires Inv(s) && !s.closing.Open? && (!Settled(s) || !s.closing.Over?)
    ensures Enabled(s, event) && !event.Draw? && !event.Take? && !event.Abandon?
  {
    if s.closing.Claimed? { event := CloseDone; }
    else if s.closing.Signalled? { event := LockPending; }
    else if s.closing.Draining? {
      if e :| e in s.pending { event := FailOne(e); } else { event := UnlockPending; }
    } else if s.carrying.Some? { event := Put; }
    else {
      var e :| e in s.requests && !s.requests[e].phase.Returned?;
      assert Sound(s, e, s.requests[e]);
      match s.requests[e].phase {
        case Drawn => event := Register(e);
        case Writing => event := Written(e);
        case Waiting => event := Receive(e);
        case Leaving => event := Withdraw(e);
        case Returned(_) => assert false;
      }
    }
  }

  /** So closing the connection lets every request return, without any context having to end. */
  lemma {:induction false} ClosingSettlesAll(s: State) returns (events: seq<Event>, s': State)
    requires Inv(s) && !s.closing.Open?
    ensures Run(s, events, s') && Settled(s') && s'.closing.Over? && |events| <= Measure(s)
    ensures forall i :: 0 <= i < |events| ==> !events[i].Draw? && !events[i].Take? && !events[i].Abandon?
    decreases Measure(s)
  {
    if Settled(s) && s.closing.Over? {
      return [], s;
    }
    var event := NeverStuck(s);
    StepKeepsInv(s, event);
    StepsAreBounded(s, event);
    var rest;
    rest, s' := ClosingSettlesAll(Step(s, event));
    events := [event] + rest;
    assert events[1..] == rest;
  }

  /** The steps of a run that change something, but for new requests; and the new requests. */
  ghost function Effective(s: State, events: seq<Event>): nat
    decreases |events|
  {
    if events == [] || !Enabled(s, events[0]) then 0 else
      (if events[0].Draw? || Step(s, events[0]) == s then 0 else 1) + Effective(Step(s, events[0]), events[1..])
  }

  function Draws(events: seq<Event>): nat {
    if events == [] then 0 else (if events[0].Draw? then 1 else 0) + Draws(events[1..])
  }

  // ---- What becomes of one request ----

  /** A request is registered while the connection is open; once done, it is refused with the error that closed it. */
  lemma RegisteredExactly(s: State, e: nat)
    requires Reachable(s) && Enabled(s, Register(e))
    ensures var s' := Step(s, Register(e));
      if s.closing.Open? || s.closing.Claimed? then In(s', e, Writing) && s'.pending == s.pending + {e}
      else s.readErr.Some? && In(s', e, Returned(Refused(s.readErr.value))) && s'.pending == s.pending
  {
    ReachableInv(s);
  }

  /** A payload for a pending request reaches it: its waiting request can only return that payload, until its context ends. */
  lemma AnswersArrive(s: State, e: nat, body: string) returns (t: State)
    requires Reachable(s) && In(s, e, Waiting) && e in s.pending && Enabled(s, Take(e, body))
    ensures var taken := Step(s, Take(e, body));
      e !in taken.pending && Enabled(taken, Put) && var put := Step(taken, Put);
      Enabled(put, Receive(e)) && t == Step(put, Receive(e))
    ensures In(t, e, Returned(Answered(Payload(e, body))))
    ensures forall d :: d in s.requests && d != e ==> d in t.requests && t.requests[d] == s.requests[d]
  {
    ReachableInv(s);
    t := Step(Step(Step(s, Take(e, body)), Put), Receive(e));
  }

  /** A payload for anything that is not pending changes no request. */
  lemma StrayPayloadsAreIgnored(s: State, e: nat, body: string)
    requires Enabled(s, Take(e, body)) && e !in s.pending
    ensures Step(s, Take(e, body)) == s
  {
  }

  /** A request that the drain finds returns the error that the connection closed with. */
  lemma DrainedRequestsFail(s: State, e: nat)
    requires Reachable(s) && In(s, e, Waiting) && Enabled(s, FailOne(e))
    ensures var failed := Step(s, FailOne(e));
      e !in failed.pending && Enabled(failed, Receive(e))
      && In(Step(failed, Receive(e)), e, Returned(Answered(ConnectionClosed(s.readErr.value))))
  {
    ReachableInv(s);
  }

  /** A request that gives up is withdrawn, and nobody else is. */
  lemma WithdrawnExactly(s: State, e: nat)
    requires Enabled(s, Withdraw(e))
    ensures var s' := Step(s, Withdraw(e));
      In(s', e, Returned(GaveUp)) && s'.pending == s.pending - {e} && s'.carrying == s.carrying
  {
  }

  /** Closing keeps its first error; the second caller finds it claimed. */
  lemma FirstErrorStays(s: State, error: string)
    requires Reachable(s)
    ensures Enabled(s, ClaimFinish(error)) <==> s.readErr.None?
    ensures Enabled(s, ClaimFinish(error)) ==> Step(s, ClaimFinish(error)).readErr == Some(error)
  {
    ReachableInv(s);
  }

  lemma DrawWeighs(s: State)
    requires Inv(s)
    ensures Measure(Step(s, Draw)) == Measure(s) + Weight(Drawn)
  {
    var k, s' := s.issued + 1, Step(s, Draw);
    assert k !in s.requests;
    MoreWeight(s, s', k);
  }

  lemma MoreWeight(s: State, s': State, k: nat)
    requires k !in s.requests && s'.requests == s.requests[k := Request(Drawn, [], 0)]
    ensures Sum(Weights(s')) == Sum(Weights(s)) + Weight(Drawn)
  {
    assert Weights(s') == Weights(s)[k := Weight(Drawn)];
    SumUpdate(Weights(s), k, Weight(Drawn));
    assert Weights(s) - {k} == Weights(s);
  }

  lemma {:induction false} RunsAreBounded(s: State, events: seq<Event>, end: State)
    requires Inv(s) && Run(s, events, end)
    ensures Inv(end) && Effective(s, events) + Measure(end) <= Measure(s) + Weight(Drawn) * Draws(events)
    decreases |events|
  {
    if events != [] {
      var next := Step(s, events[0]);
      StepKeepsInv(s, events[0]);
      if events[0].Draw? { DrawWeighs(s); } else { StepsAreBounded(s, events[0]); }
      RunsAreBounded(next, events[1..], end);
    }
  }

  lemma {:induction false} ClosingStays(s: State, events: seq<Event>, end: State)
    requires !s.closing.Open? && Run(s, events, end)
    ensures !end.closing.Open?
    decreases |events|
  {
    if events != [] { ClosingStays(Step(s, events[0]), events[1..], end); }
  }

  /**
   * However a run goes on after closing began: it takes boundedly many effective steps for each request it starts, and in a
   * state where no step of finish, of the reader or of a request is possible every request has returned.
   */
  lemma EveryClosingEnds(s: State, events: seq<Event>, end: State)
    requires Reachable(s) && !s.closing.Open? && Run(s, events, end)
    ensures Effective(s, events) <= Measure(s) + Weight(Drawn) * Draws(events)
    ensures (Settled(end) && end.closing.Over? && end.pending == {}) ||
      exists event :: Enabled(end, event) && !event.Draw? && !event.Take? && !event.Abandon?
  {
    ReachableInv(s);
    RunsAreBounded(s, events, end);
    ClosingStays(s, events, end);
    if !Settled(end) || !end.closing.Over? { var event := NeverStuck(end); }
  }
}
