/** The client's sections under the pending lock, in place, each refining steps of the state machine (client.go). */
module RequestClient {
  import opened Common
  import opened RequestModel

  class Channel {
    var values: seq<Reply>

    constructor ()
      ensures values == []
    {
      values := [];
    }

    /** A send on the one slot; it would block on a full one. */
    method Send(reply: Reply)
      requires values == []
      modifies this
      ensures values == [reply]
    {
      values := [reply];
    }
  }

  class Client {
    ghost var state: State  // the state machine's view of this object and its goroutines

    var pending: map<nat, Channel>
    var echo: nat
    var closing: Closing
    var readErr: Option<string>
    ghost var channels: map<nat, Channel>  // of every registered request

    constructor ()
      ensures Valid() && state == INITIAL_STATE
    {
      pending, echo, closing, readErr, channels := map[], 0, Open, None, map[];
      state := INITIAL_STATE;
      assert Run(INITIAL_STATE, [], INITIAL_STATE);
    }

    ghost predicate Valid() reads this, channels.Values {
      Reachable(state) && Agrees(state) && Represents(state.requests)
    }

    ghost predicate Agrees(s: State) reads this {
      && s.pending == pending.Keys && s.issued == echo && s.closing == closing && s.readErr == readErr
      && (forall e :: e in pending ==> e in channels && channels[e] == pending[e])
    }

    /** Each request with a channel has its own, which holds what the state says; the others have nothing in theirs. */
    ghost predicate Represents(requests: map<nat, Request>) reads this`channels, channels.Values {
      && (forall e :: e in channels ==> e in requests && channels[e].values == requests[e].box)
      && (forall e :: e in requests && e !in channels ==> requests[e].box == [])
      && (forall e, f :: e in channels && f in channels && channels[e] == channels[f] ==> e == f)
    }

    method DrawEcho() returns (e: nat)
      requires Valid()
      modifies this
      ensures Valid() && state == Step(old(state), Draw) && e == state.issued
      ensures channels == old(channels)
    {
      ReachableInv(state);
      Extend(state, Draw);
      echo := echo + 1;
      state := Step(state, Draw);
      e := echo;
    }

    /** Enters the request in `pending`, or reports why the connection closed. */
    method Register(e: nat) returns (channel: Channel?, error: string)
      requires Valid() && Enabled(state, RequestModel.Register(e)) && e !in channels
      modifies this
      ensures Valid() && state == Step(old(state), RequestModel.Register(e))
      ensures channel == null <==> Done(old(state))
      ensures channel == null ==> readErr == Some(error)
      ensures channel != null ==> fresh(channel) && channels == old(channels)[e := channel]
    {
      Extend(state, RequestModel.Register(e));
      ghost var was := state.requests;
      error := "";
      channel := null;
      if closing.Signalled? || closing.Over? {
        error := readErr.GetOr("");
      } else {
        channel := new Channel();
        pending := pending[e := channel];
        channels := channels[e := channel];
      }
      state := Step(state, RequestModel.Register(e));
    }

    /** The reader's half under the lock: the request leaves `pending`, so nobody else can answer it. */
    method TakePending(e: nat, body: string) returns (channel: Channel?)
      requires Valid() && Enabled(state, Take(e, body))
      modifies this
      ensures Valid() && state == Step(old(state), Take(e, body)) && channels == old(channels)
      ensures channel == null <==> e !in old(pending)
      ensures channel != null ==> e in channels && channels[e] == channel && Carries(state, e)
    {
      Extend(state, Take(e, body));
      channel := if e in pending then pending[e] else null;
      pending := pending - {e};
      state := Step(state, Take(e, body));
    }

    /** The reader's send, outside the lock. */
    method PutReply(e: nat, channel: Channel, body: string)
      requires Valid() && Enabled(state, Put) && state.carrying == Some(Payload(e, body))
      requires e in channels && channels[e] == channel
      modifies this`state, channel
      ensures Valid() && state == Step(old(state), Put)
    {
      SendsNeverBlock(state, Put);
      Extend(state, Put);
      channel.Send(Payload(e, body));
      state := Step(state, Put);
    }

    /** removePending, with the return that follows. */
    method Withdraw(e: nat)
      requires Valid() && Enabled(state, RequestModel.Withdraw(e))
      modifies this`state, this`pending
      ensures Valid() && state == Step(old(state), RequestModel.Withdraw(e))
    {
      Extend(state, RequestModel.Withdraw(e));
      pending := pending - {e};
      state := Step(state, RequestModel.Withdraw(e));
    }

    /** The start of finish; a second call does nothing. */
    method ClaimClose(error: string) returns (first: bool)
      requires Valid()
      modifies this`state, this`closing, this`readErr
      ensures Valid() && first == old(state).closing.Open?
      ensures state == if first then Step(old(state), ClaimFinish(error)) else old(state)
    {
      first := closing.Open?;
      if first {
        Extend(state, ClaimFinish(error));
        closing, readErr := Claimed, Some(error);
        state := Step(state, ClaimFinish(error));
      }
    }

    /** The drain under the lock, in whatever order the map is walked. */
    method Drain() returns (order: seq<nat>)
      requires Valid() && Enabled(state, LockPending)
      modifies this`state, this`pending, this`closing, pending.Values
      ensures Valid() && pending == map[]
      ensures Run(old(state), [LockPending] + Failures(order) + [UnlockPending], state)
      ensures forall e :: e in order <==> e in old(pending)
      ensures forall e :: e in old(pending) ==> old(pending)[e].values == [Closure()]
    {
      ghost var start := state;
      StartDrain();
      DrainStarts(start);
      order := FailAll(start);
      RunExtends(start, [LockPending] + Failures(order), state, UnlockPending);
      EndDrain();
    }

    /** What finish sends to the requests it finds. */
    ghost function Closure(): Reply reads this`readErr { ConnectionClosed(readErr.GetOr("")) }

    /** Every send of the drain finds its slot free. */
    method FailAll(ghost start: State) returns (order: seq<nat>)
      requires Valid() && closing.Draining? && DrainRun(start, [], state)
      modifies this`state, this`pending, pending.Values
      ensures Valid() && pending == map[] && DrainRun(start, order, state)
      ensures forall e :: e in order <==> e in old(pending)
      ensures Failed(order, state.requests)
    {
      order := [];
      while pending != map[]
        invariant Valid() && pending.Keys <= old(pending).Keys && pending.Values <= old(pending).Values
        invariant forall e :: e in order <==> e in old(pending) && e !in pending
        invariant DrainRun(start, order, state) && Failed(order, state.requests)
        decreases |pending|
      {
        assert pending.Keys != {};
        ghost var before := state;
        var e := FailSome();
        DrainGoesOn(start, order, before, e);
        FailedSnoc(order, before.requests, state.requests, e);
        order := order + [e];
      }
    }

    /** The channels of these requests hold the closing error. */
    ghost predicate Failed(order: seq<nat>, requests: map<nat, Request>) reads this`readErr {
      forall e :: e in order ==> e in requests && requests[e].box == [Closure()]
    }

    lemma FailedSnoc(order: seq<nat>, before: map<nat, Request>, now: map<nat, Request>, e: nat)
      requires Failed(order, before) && e in before && e in now && now == before[e := now[e]] && now[e].box == [Closure()]
      ensures Failed(order + [e], now)
    {
    }

    method FailSome() returns (e: nat)
      requires Valid() && closing.Draining? && pending.Keys != {}
      modifies this`state, this`pending, pending.Values
      ensures Valid() && e in old(pending) && pending == old(pending) - {e} && |pending| < |old(pending)|
      ensures Enabled(old(state), FailOne(e)) && state == Step(old(state), FailOne(e))
      ensures e in old(state.requests)
      ensures state.requests == old(state.requests)[e := Request(old(state.requests)[e].phase, [Closure()], 1)]
    {
      e :| e in pending;
      FailPending(e);
    }

    method StartDrain()
      requires Valid() && Enabled(state, LockPending)
      modifies this`state, this`closing
      ensures Valid() && state == Step(old(state), LockPending)
    {
      Extend(state, LockPending);
      closing, state := Draining, Step(state, LockPending);
    }

    method EndDrain()
      requires Valid() && closing.Draining? && pending == map[]
      modifies this`state, this`closing
      ensures Valid() && Enabled(old(state), UnlockPending) && state == Step(old(state), UnlockPending)
    {
      Extend(state, UnlockPending);
      closing, state := Over, Step(state, UnlockPending);
    }

    method FailPending(e: nat)
      requires Valid() && closing.Draining? && e in pending
      modifies this`state, this`pending, pending[e]
      ensures Valid() && Enabled(old(state), FailOne(e)) && state == Step(old(state), FailOne(e))
      ensures pending == old(pending) - {e} && |pending| < |old(pending)|
      ensures state.requests == old(state.requests)[e := Request(old(state.requests)[e].phase, [Closure()], 1)]
    {
      FailureIsOneSend(state, e);
      Extend(state, FailOne(e));
      var channel := pending[e];
      pending := pending - {e};
      SendOn(e, channel, ConnectionClosed(readErr.value), state.requests);
      state := Step(state, FailOne(e));
    }

    /** A send on the free channel of request `e` changes what that channel holds, and no other. */
    method SendOn(e: nat, channel: Channel, reply: Reply, ghost requests: map<nat, Request>)
      requires Represents(requests) && e in channels && channels[e] == channel && requests[e].box == []
      modifies channel
      ensures channel.values == [reply]
      ensures forall r: Request :: r.box == [reply] ==> Represents(requests[e := r])
    {
      channel.Send(reply);
    }
  }

  lemma FailureIsOneSend(s: State, e: nat)
    requires Reachable(s) && s.closing.Draining? && e in s.pending
    ensures Enabled(s, FailOne(e)) && s.requests[e].box == []
    ensures Step(s, FailOne(e)).requests == s.requests[e := Request(s.requests[e].phase, [ConnectionClosed(s.readErr.value)], 1)]
  {
    ReachableInv(s);
    assert Sound(s, e, s.requests[e]) && s.requests[e].box == [];
    assert [] + [ConnectionClosed(s.readErr.value)] == [ConnectionClosed(s.readErr.value)];
  }

  ghost predicate DrainRun(start: State, order: seq<nat>, s: State) {
    Run(start, [LockPending] + Failures(order), s)
  }

  lemma DrainStarts(start: State)
    requires Enabled(start, LockPending)
    ensures DrainRun(start, [], Step(start, LockPending))
  {
  }

  lemma DrainGoesOn(start: State, order: seq<nat>, s: State, e: nat)
    requires DrainRun(start, order, s) && Enabled(s, FailOne(e))
    ensures DrainRun(start, order + [e], Step(s, FailOne(e)))
  {
    RunExtends(start, [LockPending] + Failures(order), s, FailOne(e));
    assert Failures(order + [e]) == Failures(order) + [FailOne(e)];
    assert [LockPending] + Failures(order + [e]) == [LockPending] + Failures(order) + [FailOne(e)];
  }

  ghost function Failures(order: seq<nat>): seq<Event> { seq(|order|, i requires 0 <= i < |order| => FailOne(order[i])) }
}
