/** Every step keeps the scheduler invariant, so every reachable state has it. */
module SchedulerSteps {
  import opened Common
  import opened SchedulerModel
  import opened SchedulerInvariants
  import Ingress

  // ---- A goroutine drops its queue ----

  lemma DropKeepsWired(s: State, a: nat, stage: Stage)
    requires Wired(s) && a in s.actors && Live(s.actors[a]) && stage.Leaving?
    ensures s.actors[a].conversationID in s.queues
    ensures Wired(DropQueue(s, a, stage))
  {
  }

  lemma DropKeepsCounted(s: State, limits: Limits, a: nat, stage: Stage)
    requires Shaped(s, limits) && Counted(s, limits) && a in s.actors && s.actors[a].conversationID in s.queues
    requires SlotUse(stage) == SlotUse(s.actors[a].stage)
    ensures Counted(DropQueue(s, a, stage), limits)
  {
    var c := s.actors[a].conversationID;
    assert QueueShaped(s.queues[c], c, limits);
    RemoveQueue(s.queues, c);
    PutActor(s.actors, a, Actor(c, stage));
  }

  lemma DropKeepsPartitioned(s: State, limits: Limits, a: nat, stage: Stage)
    requires Shaped(s, limits) && Partitioned(s) && a in s.actors && s.actors[a].conversationID in s.queues
    ensures Partitioned(DropQueue(s, a, stage))
  {
    var s', c := DropQueue(s, a, stage), s.actors[a].conversationID;
    var was := s.queues[c].items;
    assert QueueShaped(s.queues[c], c, limits);
    forall t ensures Queued(s', t) <==> Queued(s, t) && t !in was {}
    forall t | t in was ensures Queued(s, t) {}
    DistinctConcat(s.log.discarded, was);
  }

  lemma DistinctConcat(xs: seq<Turn>, ys: seq<Turn>)
    requires Distinct(xs) && Distinct(ys) && forall y :: y in ys ==> y !in xs
    ensures Distinct(xs + ys)
  {
    forall i, j | 0 <= i < j < |xs + ys| ensures (xs + ys)[i] != (xs + ys)[j] {
      if i < |xs| <= j { assert ys[j - |xs|] in ys; }
    }
  }

  lemma DropKeepsOrder(s: State, a: nat, stage: Stage, x: string)
    requires OrderedIn(s, x) && a in s.actors && s.actors[a].conversationID in s.queues
    requires forall t :: t in s.queues[s.actors[a].conversationID].items ==> t.conversationID == s.actors[a].conversationID
    ensures OrderedIn(DropQueue(s, a, stage), x)
  {
    var s', c := DropQueue(s, a, stage), s.actors[a].conversationID;
    var was := s.queues[c].items;
    NormalsConcat(s.log.discarded, was, x);
    if x == c {
      Regroup(Normals(s.log.started, x), Normals(s.log.discarded, x), Normals(was, x));
    } else {
      NoNormals(was, x);
      assert ItemsOf(s', x) == ItemsOf(s, x);
    }
  }

  lemma {:induction false} NoNormals(ts: seq<Turn>, c: string)
    requires forall t :: t in ts ==> t.conversationID != c
    ensures Normals(ts, c) == []
  {
    if ts != [] { NoNormals(ts[..|ts| - 1], c); }
  }

  lemma DropKeepsInv(s: State, limits: Limits, a: nat, stage: Stage)
    requires Inv(s, limits) && a in s.actors && Live(s.actors[a]) && stage.Leaving?
    requires SlotUse(stage) == SlotUse(s.actors[a].stage)
    requires s.lifecycleDone || ItemsOf(s, s.actors[a].conversationID) == []
    ensures s.actors[a].conversationID in s.queues
    ensures Inv(DropQueue(s, a, stage), limits)
  {
    DropKeepsWired(s, a, stage);
    var c := s.actors[a].conversationID;
    assert QueueShaped(s.queues[c], c, limits);
    DropKeepsCounted(s, limits, a, stage);
    DropKeepsPartitioned(s, limits, a, stage);
    forall x ensures OrderedIn(DropQueue(s, a, stage), x) { DropKeepsOrder(s, a, stage, x); }
  }

  // ---- A turn starts ----

  lemma StartKeepsWired(s: State, limits: Limits, a: nat)
    requires Wired(s) && Shaped(s, limits) && At(s, a, Between) && s.actors[a].conversationID in s.queues
    requires s.queues[s.actors[a].conversationID].items != []
    ensures Wired(StartTurn(s, a))
  {
  }

  lemma StartKeepsShaped(s: State, limits: Limits, a: nat)
    requires Shaped(s, limits) && a in s.actors && s.actors[a].conversationID in s.queues
    requires s.queues[s.actors[a].conversationID].items != []
    ensures Shaped(StartTurn(s, a), limits)
  {
  }

  lemma StartKeepsCounted(s: State, limits: Limits, a: nat)
    requires Shaped(s, limits) && Counted(s, limits) && At(s, a, Between) && s.actors[a].conversationID in s.queues
    requires s.queues[s.actors[a].conversationID].items != []
    ensures Counted(StartTurn(s, a), limits)
  {
    var s', c := StartTurn(s, a), s.actors[a].conversationID;
    assert QueueShaped(s.queues[c], c, limits);
    PutLength(s.queues, c, s'.queues[c]);
    PutControl(s.queues, c, s'.queues[c]);
    PutActor(s.actors, a, s'.actors[a]);
  }

  lemma StartKeepsPartitioned(s: State, limits: Limits, a: nat)
    requires Shaped(s, limits) && Partitioned(s) && a in s.actors && s.actors[a].conversationID in s.queues
    requires s.queues[s.actors[a].conversationID].items != []
    ensures Partitioned(StartTurn(s, a))
  {
    var s', c := StartTurn(s, a), s.actors[a].conversationID;
    var was := s.queues[c].items;
    var t := was[0];
    assert QueueShaped(s.queues[c], c, limits);
    assert Queued(s, t);
    assert was == [t] + was[1..];
    assert t !in was[1..];
    forall x ensures Queued(s, x) <==> Queued(s', x) || x == t {
      assert x in was <==> x == t || x in was[1..];
    }
    assert !Queued(s', t);
    DistinctWith(t, s.log.started);
  }

  lemma StartKeepsOrder(s: State, limits: Limits, a: nat)
    requires Shaped(s, limits) && InOrder(s) && a in s.actors && s.actors[a].conversationID in s.queues
    requires s.queues[s.actors[a].conversationID].items != [] && s.log.discarded == []
    ensures InOrder(StartTurn(s, a))
  {
    var s', c := StartTurn(s, a), s.actors[a].conversationID;
    var was := s.queues[c].items;
    assert QueueShaped(s.queues[c], c, limits);
    forall x ensures OrderedIn(s', x) {
      assert OrderedIn(s, x);
      HeadMovesOn(s.log.started, was, x);
      assert Normals(s.log.discarded, x) == [] && Normals(s'.log.discarded, x) == [];
      assert Normals(s.log.started, x) + [] == Normals(s.log.started, x);
      assert Normals(s'.log.started, x) + [] == Normals(s'.log.started, x);
      assert s'.log.started == s.log.started + [was[0]] && was[0].conversationID == c;
      if x == c {
        assert ItemsOf(s', x) == was[1..] && ItemsOf(s, x) == was;
      } else {
        assert ItemsOf(s', x) == ItemsOf(s, x);
      }
    }
  }

  /** The head of a queue goes to the end of what has started. */
  lemma HeadMovesOn(started: seq<Turn>, items: seq<Turn>, x: string)
    requires items != []
    ensures Normals(started + [items[0]], x) + Normals(items[1..], x) == Normals(started, x) + Normals(items, x)
    ensures items[0].conversationID != x ==> Normals(started + [items[0]], x) == Normals(started, x)
  {
    NormalsConcat(started, [items[0]], x);
    NormalsConcat([items[0]], items[1..], x);
    assert items == [items[0]] + items[1..];
    assert [items[0]][..0] == [];
  }

  // ---- A turn ends ----

  /** Two running turns never share a context. */
  lemma RunningSerialsDiffer(s: State, limits: Limits, a: nat, b: nat)
    requires Inv(s, limits) && RunningActor(s, a) && RunningActor(s, b) && a != b
    ensures s.actors[a].stage.turn.serial != s.actors[b].stage.turn.serial
  {
  }

  lemma FinishKeepsWired(s: State, limits: Limits, a: nat)
    requires Inv(s, limits) && Enabled(s, limits, Finish(a))
    ensures Wired(FinishStep(s, a))
  {
    var s', c := FinishStep(s, a), s.actors[a].conversationID;
    assert ActorWired(s, a);
    forall x | x in s'.queues ensures QueueOwned(s', x) { assert QueueOwned(s, x); }
    forall b | b in s'.actors ensures ActorWired(s', b) {
      assert ActorWired(s, b);
      if b != a && RunningActor(s, b) { RunningSerialsDiffer(s, limits, a, b); }
    }
  }

  lemma FinishKeepsShaped(s: State, limits: Limits, a: nat)
    requires Shaped(s, limits) && RunningActor(s, a) && s.actors[a].conversationID in s.queues
    requires s.actors[a].stage.turn.serial in s.contexts
    ensures Shaped(FinishStep(s, a), limits)
  {
    var s', c := FinishStep(s, a), s.actors[a].conversationID;
    assert QueueShaped(s.queues[c], c, limits);
    assert QueueShaped(s'.queues[c], c, limits);
  }

  lemma FinishKeepsCounted(s: State, limits: Limits, a: nat)
    requires Counted(s, limits) && RunningActor(s, a) && s.actors[a].conversationID in s.queues
    requires s.actors[a].stage.turn.serial in s.contexts
    ensures Counted(FinishStep(s, a), limits)
  {
    var s', c := FinishStep(s, a), s.actors[a].conversationID;
    PutLength(s.queues, c, s'.queues[c]);
    PutControl(s.queues, c, s'.queues[c]);
    PutActor(s.actors, a, s'.actors[a]);
  }

  /** What a history says depends on the queues' items, the turns and the shutdown flags only. */
  lemma SameItemsKeepRecorded(s: State, s': State)
    requires Recorded(s) && s'.queues.Keys == s.queues.Keys
    requires forall c :: c in s.queues ==> s'.queues[c].items == s.queues[c].items
    requires s'.log.accepted == s.log.accepted && s'.log.started == s.log.started && s'.log.discarded == s.log.discarded
    requires s'.next == s.next && s'.accepting == s.accepting && s'.lifecycleDone == s.lifecycleDone
    ensures Recorded(s')
  {
    assert forall x :: ItemsOf(s', x) == ItemsOf(s, x);
    assert forall x :: OrderedIn(s', x) <==> OrderedIn(s, x);
    assert forall t :: Queued(s', t) <==> Queued(s, t);
  }

  lemma FinishKeepsInv(s: State, limits: Limits, a: nat)
    requires Inv(s, limits) && Enabled(s, limits, Finish(a))
    ensures Inv(FinishStep(s, a), limits)
  {
    FinishKeepsWired(s, limits, a);
    FinishKeepsShaped(s, limits, a);
    FinishKeepsCounted(s, limits, a);
    SameItemsKeepRecorded(s, FinishStep(s, a));
  }

  // ---- Slots ----

  lemma AcquireKeepsWired(s: State, s': State, a: nat)
    requires Wired(s) && At(s, a, Waiting)
    requires s'.queues == s.queues && s'.next == s.next && s'.contexts == s.contexts && s'.log == s.log
    requires s'.actors == s.actors[a := s.actors[a].(stage := Between)]
    ensures Wired(s')
  {
  }

  lemma LeaveKeepsWired(s: State, s': State, a: nat)
    requires Wired(s) && a in s.actors && s.actors[a].stage.Leaving?
    requires s'.queues == s.queues && s'.next == s.next && s'.contexts == s.contexts && s'.log == s.log
    requires s'.actors == s.actors - {a}
    ensures Wired(s')
  {
  }

  lemma AcquireKeepsInv(s: State, limits: Limits, a: nat)
    requires Inv(s, limits) && Enabled(s, limits, AcquireSlot(a))
    ensures Inv(Step(s, limits, AcquireSlot(a)), limits)
  {
    var s' := Step(s, limits, AcquireSlot(a));
    AcquireKeepsWired(s, s', a);
    SameItemsKeepRecorded(s, s');
    PutActor(s.actors, a, s'.actors[a]);
  }

  lemma LeaveKeepsInv(s: State, limits: Limits, a: nat)
    requires Inv(s, limits) && Enabled(s, limits, Leave(a))
    ensures Inv(Step(s, limits, Leave(a)), limits)
  {
    var s' := Step(s, limits, Leave(a));
    LeaveKeepsWired(s, s', a);
    SameItemsKeepRecorded(s, s');
    RemoveActor(s.actors, a);
  }

  // ---- Admission ----

  lemma ClaimantsSnoc(ts: seq<Turn>, t: Turn)
    ensures Claimants(ts + [t]) == Claimants(ts) + (if t.retryable then [] else [t])
  {
  }

  /** Grants that match the claimants still do when a claim is granted and its turn accepted, or is not granted. */
  lemma ClaimKeepsMatched(grants: Ingress.Grants, accepted: seq<Turn>, t: Turn, at: int, o: Ingress.Outcome)
    requires Matched(grants, Claimants(accepted)) && !t.retryable
    ensures Matched(Ingress.Granted(grants, t.source, t.eventID, at, o), Claimants(if o == Ingress.Claimed then accepted + [t] else accepted))
  {
    ClaimantsSnoc(accepted, t);
  }

  ghost predicate KeptSpaced(ledger: Ingress.Ledger, retention: nat, grants: Ingress.Grants, marks: seq<Ingress.Mark>) {
    Ingress.NoneComesBack(marks, retention) ==> Ingress.AllKept(ledger, retention, grants, marks) && Ingress.Spaced(retention, grants)
  }

  lemma ClaimKeepsSpaced(ledger: Ingress.Ledger, retention: nat, grants: Ingress.Grants, marks: seq<Ingress.Mark>, t: Turn, at: int,
                         fault: Ingress.Fault)
    requires KeptSpaced(ledger, retention, grants, marks)
    ensures var (ledger', o) := Ingress.Claim(ledger, retention, t.source, t.eventID, at, fault);
      var m := Ingress.MarkOf(ledger, (t.source, t.eventID), Ingress.Access(at, fault, true));
      KeptSpaced(ledger', retention, Ingress.Granted(grants, t.source, t.eventID, at, o), marks + [m])
  {
    var key, use := (t.source, t.eventID), Ingress.Access(at, fault, true);
    var m := Ingress.MarkOf(ledger, key, use);
    if Ingress.NoneComesBack(marks + [m], retention) {
      Ingress.NoneComesBackPrefix(marks, m, retention);
      Ingress.ClaimKeepsSpacing(ledger, retention, grants, marks, key, use);
    }
  }

  /** One claim, granted for the accepted turn `t` or not granted. */
  lemma ClaimKeepsDeduplicated(log: History, ledger: Ingress.Ledger, retention: nat, t: Turn, at: int, fault: Ingress.Fault)
    requires DeduplicatedLog(log, ledger, retention) && !t.retryable
    ensures var (ledger', o) := Ingress.Claim(ledger, retention, t.source, t.eventID, at, fault);
      var m := Ingress.MarkOf(ledger, (t.source, t.eventID), Ingress.Access(at, fault, true));
      var log' := log.(grants := Ingress.Granted(log.grants, t.source, t.eventID, at, o), claims := log.claims + [m]);
      if o == Ingress.Claimed then DeduplicatedLog(log'.(accepted := log.accepted + [t]), ledger', retention)
      else DeduplicatedLog(log', ledger', retention)
  {
    var o := Ingress.Claim(ledger, retention, t.source, t.eventID, at, fault).1;
    ClaimKeepsMatched(log.grants, log.accepted, t, at, o);
    assert KeptSpaced(ledger, retention, log.grants, log.claims);
    ClaimKeepsSpaced(ledger, retention, log.grants, log.claims, t, at, fault);
  }

  lemma SubmitKeepsDeduplicated(s: State, limits: Limits, r: Request, now: int, fault: Ingress.Fault)
    requires Deduplicated(s, limits)
    ensures Deduplicated(SubmitStep(s, limits, r, now, fault).0, limits)
  {
    var t := NewTurn(s, r);
    if Admission(s, limits, r) == Accepted {
      if r.retryable {
        ClaimantsSnoc(s.log.accepted, t);
      } else {
        ClaimKeepsDeduplicated(s.log, s.ledger, limits.retention, t, now, fault);
      }
    }
  }

  /** Only the ledger, the grants and the claim times differ between `s` and `s'`. */
  ghost predicate SameBut(s: State, s': State) {
    s' == s.(ledger := s'.ledger, log := s.log.(grants := s'.log.grants, claims := s'.log.claims))
  }

  lemma SameButKeeps(s: State, s': State, limits: Limits)
    requires SameBut(s, s') && Wired(s) && Shaped(s, limits) && Counted(s, limits) && Recorded(s)
    ensures Wired(s') && Shaped(s', limits) && Counted(s', limits) && Recorded(s')
  {
    SameItemsKeepRecorded(s, s');
    SameButKeepsWired(s, s');
  }

  lemma SameButKeepsWired(s: State, s': State)
    requires SameBut(s, s') && Wired(s)
    ensures Wired(s')
  {
    forall x | x in s'.queues ensures QueueOwned(s', x) { assert QueueOwned(s, x); }
    forall b | b in s'.actors ensures ActorWired(s', b) { assert ActorWired(s, b); }
  }

  /** A use of the table elsewhere takes or deletes rows but grants the scheduler nothing. */
  lemma UseElsewhereKeepsInv(s: State, limits: Limits, key: Ingress.Key, use: Ingress.Access)
    requires Inv(s, limits)
    ensures Inv(Step(s, limits, UseElsewhere(key, use)), limits)
  {
    var s' := Step(s, limits, UseElsewhere(key, use));
    SameButKeeps(s, s', limits);
    var m := Ingress.MarkOf(s.ledger, key, use);
    if Ingress.NoneComesBack(s'.log.claims, limits.retention) {
      Ingress.NoneComesBackPrefix(s.log.claims, m, limits.retention);
      forall i | 0 <= i < |s.log.grants| ensures Ingress.Kept(s'.ledger, limits.retention, s.log.grants[i], s'.log.claims) {
        Ingress.AccessKeepsGrant(s.ledger, limits.retention, s.log.grants[i], s.log.claims, key, use);
      }
    }
  }

  lemma SubmitKeepsInv(s: State, limits: Limits, r: Request, now: int, fault: Ingress.Fault)
    requires Inv(s, limits) && ValidLimits(limits)
    ensures Inv(SubmitStep(s, limits, r, now, fault).0, limits)
  {
    SubmitKeepsDeduplicated(s, limits, r, now, fault);
    if Admission(s, limits, r) == Accepted {
      var base := if r.retryable then s else Claimed(s, limits, r, now, fault).0;
      SameButKeeps(s, base, limits);
      assert Admission(base, limits, r) == Accepted;
      EnqueueKeepsWired(base, limits, r);
      EnqueueKeepsShaped(base, limits, r);
      EnqueueKeepsCounted(base, limits, r);
      EnqueueKeepsRecorded(base, limits, r);
    }
  }

  // ---- Cancellation ----

  /** A step that only sets causes or the two shutdown flags. */
  lemma SignalKeepsInv(s: State, limits: Limits, s': State)
    requires Inv(s, limits)
    requires s' == s.(accepting := s'.accepting, lifecycleDone := s'.lifecycleDone, contexts := s'.contexts)
    requires s'.contexts.Keys == s.contexts.Keys
    requires (s'.lifecycleDone ==> !s'.accepting) && (s.lifecycleDone ==> s'.lifecycleDone)
    ensures Inv(s', limits)
  {
    assert forall x :: OrderedIn(s', x) <==> OrderedIn(s, x);
  }

  lemma NextTurnKeepsInv(s: State, limits: Limits, a: nat)
    requires Inv(s, limits) && Enabled(s, limits, NextTurn(a))
    ensures Inv(NextTurnStep(s, a), limits)
  {
    assert ActorWired(s, a);
    if s.lifecycleDone || s.queues[s.actors[a].conversationID].items == [] {
      DropKeepsInv(s, limits, a, Leaving(true));
    } else {
      StartKeepsWired(s, limits, a);
      StartKeepsShaped(s, limits, a);
      StartKeepsCounted(s, limits, a);
      StartKeepsPartitioned(s, limits, a);
      StartKeepsOrder(s, limits, a);
    }
  }

  /** Every step keeps the invariant. */
  lemma StepKeepsInv(s: State, limits: Limits, e: Event)
    requires Inv(s, limits) && ValidLimits(limits) && Enabled(s, limits, e)
    ensures Inv(Step(s, limits, e), limits)
  {
    match e
    case Submit(r, now, fault) => SubmitKeepsInv(s, limits, r, now, fault);
    case UseElsewhere(key, use) => UseElsewhereKeepsInv(s, limits, key, use);
    case Cancel(_, _) => SignalKeepsInv(s, limits, Step(s, limits, e));
    case TimerFires(_) => SignalKeepsInv(s, limits, Step(s, limits, e));
    case CloseAdmission => SignalKeepsInv(s, limits, Step(s, limits, e));
    case CancelLifecycle => SignalKeepsInv(s, limits, Step(s, limits, e));
    case AcquireSlot(a) => AcquireKeepsInv(s, limits, a);
    case DiscardQueue(a) => DropKeepsInv(s, limits, a, Leaving(false));
    case NextTurn(a) => NextTurnKeepsInv(s, limits, a);
    case Finish(a) => FinishKeepsInv(s, limits, a);
    case Leave(a) => LeaveKeepsInv(s, limits, a);
  }

  lemma {:induction false} RunKeepsInv(s: State, limits: Limits, events: seq<Event>, s': State)
    requires Inv(s, limits) && ValidLimits(limits) && Run(s, limits, events, s')
    ensures Inv(s', limits)
    decreases |events|
  {
    if events != [] {
      StepKeepsInv(s, limits, events[0]);
      RunKeepsInv(Step(s, limits, events[0]), limits, events[1..], s');
    }
  }

  lemma ReachableInv(s: State, limits: Limits)
    requires ValidLimits(limits) && Reachable(limits, s)
    ensures Inv(s, limits)
  {
    var ledger, events :| Run(Initial(ledger), limits, events, s);
    InitialInv(ledger, limits);
    RunKeepsInv(Initial(ledger), limits, events, s);
  }

  lemma InitialInv(ledger: Ingress.Ledger, limits: Limits)
    requires ValidLimits(limits)
    ensures Inv(Initial(ledger), limits)
  {
    var i := Initial(ledger);
    assert Lengths(i.queues) == map[] && Controls(i.queues) == map[] && SlotUses(i.actors) == map[];
    assert forall t :: !Queued(i, t);
  }

  lemma {:induction false} RunExtends(s: State, limits: Limits, events: seq<Event>, s': State, e: Event)
    requires Run(s, limits, events, s') && Enabled(s', limits, e)
    ensures Run(s, limits, events + [e], Step(s', limits, e))
    decreases |events|
  {
    if events == [] {
      assert [] + [e] == [e] && [e][1..] == [];
      assert Run(Step(s, limits, e), limits, [e][1..], Step(s, limits, e));
    } else {
      RunExtends(Step(s, limits, events[0]), limits, events[1..], s', e);
      assert (events + [e])[1..] == events[1..] + [e];
    }
  }

  lemma StaysReachable(limits: Limits, s: State, e: Event)
    requires Reachable(limits, s) && Enabled(s, limits, e)
    ensures Reachable(limits, Step(s, limits, e))
  {
    var ledger, events :| Run(Initial(ledger), limits, events, s);
    RunExtends(Initial(ledger), limits, events, s, e);
  }
}
