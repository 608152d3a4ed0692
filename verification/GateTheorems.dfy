/** What the gate promises over whole histories of previews and commits. */
module GateTheorems {
  import opened Common
  import opened Gate

  /** The gate's memory after the first `n` calls. */
  function After(b: Behavior, calls: seq<Call>, n: nat): Focuses
    requires n <= |calls|
  {
    if n == 0 then map[] else Evaluate(After(b, calls, n - 1), b, calls[n - 1]).0
  }

  function Decided(b: Behavior, calls: seq<Call>, n: nat): Decision
    requires n < |calls|
  {
    Evaluate(After(b, calls, n), b, calls[n]).1
  }

  function IdealAfter(b: Behavior, calls: seq<Call>, n: nat): Focuses
    requires n <= |calls|
  {
    if n == 0 then map[] else Ideal(IdealAfter(b, calls, n - 1), b, calls[n - 1]).0
  }

  function IdealDecided(b: Behavior, calls: seq<Call>, n: nat): Decision
    requires n < |calls|
  {
    Ideal(IdealAfter(b, calls, n), b, calls[n]).1
  }

  ghost predicate Monotone(calls: seq<Call>) {
    forall i, j :: 0 <= i < j < |calls| ==> calls[i].now <= calls[j].now
  }

  function Times(calls: seq<Call>): (times: seq<int>)
    ensures |times| == |calls|
  {
    seq(|calls|, i requires 0 <= i < |calls| => calls[i].now)
  }

  /** Times may go back, by at most `d`, but not to before an expiry that a call has passed. */
  ghost predicate Admissible(b: Behavior, calls: seq<Call>, d: nat) {
    NeverReturns(Times(calls), b.focusTTL) && forall i, j :: 0 <= i < j < |calls| ==> calls[i].now <= calls[j].now + d
  }

  lemma MonotoneIsAdmissible(b: Behavior, calls: seq<Call>)
    ensures Monotone(calls) <==> Admissible(b, calls, 0)
  {
    if Monotone(calls) {
      forall i: nat, j: nat, k: nat ensures !Returns(Times(calls), b.focusTTL, i, j, k) {
        if j < k < |calls| { assert Times(calls)[j] <= Times(calls)[k]; }
      }
    }
  }

  // ---- Refinement of the simple gate ----

  function Look(m: Focuses, k: string): Option<Focus> { if k in m then Some(m[k]) else None }

  /** Among the first `n` calls, one is a focus lifetime before `e` and a later one is not before `e`. */
  ghost predicate Gone(b: Behavior, calls: seq<Call>, n: nat, e: int)
    requires n <= |calls|
  {
    exists i, j :: 0 <= i < j < n && calls[i].now + b.focusTTL == e && e <= calls[j].now
  }

  lemma GoneForGood(b: Behavior, calls: seq<Call>, d: nat, n: nat, e: int)
    requires Admissible(b, calls, d) && n < |calls| && Gone(b, calls, n, e)
    ensures e <= calls[n].now && Gone(b, calls, n + 1, e)
  {
    var i, j :| 0 <= i < j < n && calls[i].now + b.focusTTL == e && e <= calls[j].now;
    assert !Returns(Times(calls), b.focusTTL, i, j, n);
  }

  /** An earlier call set the focus, and one not much later stamped it. */
  ghost predicate Dated(b: Behavior, calls: seq<Call>, d: nat, n: nat, f: Focus)
    requires n <= |calls|
  {
    && (exists i :: 0 <= i < n && calls[i].now + b.focusTTL == f.expiresAt)
    && (f.lastSoftAt.Some? ==> f.lastSoftAt.value + b.focusTTL - d <= f.expiresAt
                               && exists i :: 0 <= i < n && calls[i].now == f.lastSoftAt.value)
  }

  /** A stamp whose cooldown was over when some focus was gone. */
  ghost predicate Stale(b: Behavior, calls: seq<Call>, n: nat, stamp: Option<int>)
    requires n <= |calls|
  {
    stamp.Some? && exists e :: Gone(b, calls, n, e) && stamp.value + b.softCooldown <= e
  }

  /** There is no focus, or it is gone. */
  ghost predicate Out(b: Behavior, calls: seq<Call>, n: nat, f: Option<Focus>)
    requires n <= |calls|
  {
    f.Some? ==> Gone(b, calls, n, f.value.expiresAt)
  }

  /** The focuses agree; the stamps may differ, but only where no cooldown is set or it is over. */
  ghost predicate Alike(b: Behavior, calls: seq<Call>, n: nat, f: Option<Focus>, g: Option<Focus>)
    requires n <= |calls|
  {
    f.Some? && g.Some? && f.value.sender == g.value.sender && f.value.expiresAt == g.value.expiresAt
    && (b.softCooldown <= 0 || f.value.lastSoftAt == g.value.lastSoftAt
        || (g.value.lastSoftAt == None && Stale(b, calls, n, f.value.lastSoftAt)))
  }

  ghost predicate SimFocus(b: Behavior, calls: seq<Call>, d: nat, n: nat, f: Option<Focus>, g: Option<Focus>)
    requires n <= |calls|
  {
    && (f.Some? ==> Dated(b, calls, d, n, f.value))
    && (Alike(b, calls, n, f, g) || (Out(b, calls, n, f) && Out(b, calls, n, g)))
  }

  ghost predicate Sim(b: Behavior, calls: seq<Call>, d: nat, n: nat, m: Focuses, ideal: Focuses)
    requires n <= |calls|
  {
    forall k :: SimFocus(b, calls, d, n, Look(m, k), Look(ideal, k))
  }

  predicate LiveAt(f: Option<Focus>, now: int) { f.Some? && now < f.value.expiresAt }

  /** Call `n` finds the focuses alike and live, or leaves both gone. */
  lemma SimExpires(b: Behavior, calls: seq<Call>, d: nat, n: nat, f: Option<Focus>, g: Option<Focus>)
    requires Admissible(b, calls, d) && n < |calls| && SimFocus(b, calls, d, n, f, g)
    ensures SimFocus(b, calls, d, n + 1, f, g) && (f.Some? ==> Dated(b, calls, d, n + 1, f.value))
    ensures if LiveAt(f, calls[n].now) || LiveAt(g, calls[n].now)
      then LiveAt(f, calls[n].now) && LiveAt(g, calls[n].now) && Alike(b, calls, n, f, g) && Alike(b, calls, n + 1, f, g)
      else Out(b, calls, n + 1, f) && Out(b, calls, n + 1, g)
  {
    if Alike(b, calls, n, f, g) {
      if Stale(b, calls, n, f.value.lastSoftAt) { StaysStale(b, calls, d, n, f.value.lastSoftAt); }
    } else {
      if f.Some? { GoneForGood(b, calls, d, n, f.value.expiresAt); }
      if g.Some? { GoneForGood(b, calls, d, n, g.value.expiresAt); }
    }
  }

  lemma StaysStale(b: Behavior, calls: seq<Call>, d: nat, n: nat, stamp: Option<int>)
    requires Admissible(b, calls, d) && n < |calls| && Stale(b, calls, n, stamp)
    ensures Stale(b, calls, n + 1, stamp) && stamp.value + b.softCooldown <= calls[n].now
  {
    var e :| Gone(b, calls, n, e) && stamp.value + b.softCooldown <= e;
    GoneForGood(b, calls, d, n, e);
  }

  /** What call `n` finds under one key; `SimExpires` establishes it. */
  ghost predicate Met(b: Behavior, calls: seq<Call>, d: nat, n: nat, f: Option<Focus>, g: Option<Focus>)
    requires n < |calls|
  {
    && (f.Some? ==> Dated(b, calls, d, n + 1, f.value))
    && (if LiveAt(f, calls[n].now) || LiveAt(g, calls[n].now)
        then LiveAt(f, calls[n].now) && LiveAt(g, calls[n].now) && Alike(b, calls, n + 1, f, g)
        else Out(b, calls, n + 1, f) && Out(b, calls, n + 1, g))
  }

  /** A behavior for which stamps that outlive their focus do not matter. */
  predicate Covers(b: Behavior, d: nat) { b.focusTTL <= 0 || b.softCooldown <= 0 || b.softCooldown + d <= b.focusTTL }

  function Live(f: Option<Focus>, now: int): Option<Focus> { if LiveAt(f, now) then f else None }

  /** The focus that call `n` sets after the two it met. */
  function NewFocus(b: Behavior, c: Call, f: Option<Focus>): Option<Focus> {
    Some(Focus(c.event.sender, c.now + b.focusTTL,
               if f.Some? && f.value.sender == c.event.sender then f.value.lastSoftAt else None))
  }

  lemma SimNewFocus(b: Behavior, calls: seq<Call>, d: nat, n: nat, f: Option<Focus>, g: Option<Focus>)
    requires Admissible(b, calls, d) && n < |calls| && Met(b, calls, d, n, f, g) && Covers(b, d) && b.focusTTL > 0
    ensures SimFocus(b, calls, d, n + 1, NewFocus(b, calls[n], f), NewFocus(b, calls[n], Live(g, calls[n].now)))
  {
    if f.Some? && !LiveAt(g, calls[n].now) && f.value.lastSoftAt.Some? && b.softCooldown > 0 {
      assert Stale(b, calls, n + 1, f.value.lastSoftAt);
    }
  }

  lemma SoftAgrees(b: Behavior, calls: seq<Call>, d: nat, n: nat, f: Option<Focus>, g: Option<Focus>)
    requires Admissible(b, calls, d) && n < |calls| && Alike(b, calls, n, f, g)
    ensures Soft(b, calls[n], f.value) == Soft(b, calls[n], g.value)
  {
    if Stale(b, calls, n, f.value.lastSoftAt) { StaysStale(b, calls, d, n, f.value.lastSoftAt); }
  }

  // ---- What one call does to one key ----

  /** The code's focus under key `k` after a call. */
  function CodeStep(b: Behavior, c: Call, k: string, f: Option<Focus>): Option<Focus> {
    var mine := k == c.event.conversationID;
    match Early(b, c)
    case Some(e) =>
      if !TakesFocus(e) || !c.commit || b.focusTTL <= 0 then f else if mine then NewFocus(b, c, f) else Live(f, c.now)
    case None =>
      if !mine then f else if !LiveAt(f, c.now) then None
      else if c.commit && Soft(b, c, f.value).reason == SoftTrigger then Some(Focus(f.value.sender, c.now + b.focusTTL, Some(c.now)))
      else f
  }

  /** The simple gate's focus. */
  function IdealStep(b: Behavior, c: Call, k: string, g: Option<Focus>): Option<Focus> {
    var mine, live := k == c.event.conversationID, Live(g, c.now);
    if !c.commit then g else
      match Early(b, c)
      case Some(e) => if TakesFocus(e) && b.focusTTL > 0 && mine then NewFocus(b, c, live) else live
      case None =>
        if mine && live.Some? && Soft(b, c, live.value).reason == SoftTrigger
        then Some(Focus(c.event.sender, c.now + b.focusTTL, Some(c.now))) else live
  }

  lemma StepsByKey(b: Behavior, c: Call, m: Focuses, ideal: Focuses, k: string)
    ensures Look(Evaluate(m, b, c).0, k) == CodeStep(b, c, k, Look(m, k))
    ensures Look(Ideal(ideal, b, c).0, k) == IdealStep(b, c, k, Look(ideal, k))
  {
  }

  lemma DecisionsByKey(b: Behavior, c: Call, m: Focuses, ideal: Focuses)
    requires var f, g := Look(m, c.event.conversationID), Look(ideal, c.event.conversationID);
      (LiveAt(f, c.now) <==> LiveAt(g, c.now)) && (LiveAt(f, c.now) ==> Soft(b, c, f.value) == Soft(b, c, g.value))
    ensures Evaluate(m, b, c).1 == Ideal(ideal, b, c).1
  {
  }

  lemma EarlyKeyStep(b: Behavior, calls: seq<Call>, d: nat, n: nat, k: string, f: Option<Focus>, g: Option<Focus>)
    requires Admissible(b, calls, d) && n < |calls| && Met(b, calls, d, n, f, g) && SimFocus(b, calls, d, n + 1, f, g)
    requires Early(b, calls[n]).Some? && Covers(b, d)
    ensures SimFocus(b, calls, d, n + 1, CodeStep(b, calls[n], k, f), IdealStep(b, calls[n], k, g))
  {
    var takes := TakesFocus(Early(b, calls[n]).value) && calls[n].commit && b.focusTTL > 0;
    if takes && k == calls[n].event.conversationID { SimNewFocus(b, calls, d, n, f, g); }
  }

  lemma SoftKeyStep(b: Behavior, calls: seq<Call>, d: nat, n: nat, k: string, f: Option<Focus>, g: Option<Focus>)
    requires Admissible(b, calls, d) && n < |calls| && Met(b, calls, d, n, f, g) && SimFocus(b, calls, d, n + 1, f, g)
    requires Early(b, calls[n]).None? && (LiveAt(f, calls[n].now) ==> Soft(b, calls[n], f.value) == Soft(b, calls[n], g.value))
    ensures SimFocus(b, calls, d, n + 1, CodeStep(b, calls[n], k, f), IdealStep(b, calls[n], k, g))
  {
  }

  lemma SimKeyStep(b: Behavior, calls: seq<Call>, d: nat, n: nat, k: string, f: Option<Focus>, g: Option<Focus>)
    requires Admissible(b, calls, d) && n < |calls| && SimFocus(b, calls, d, n, f, g) && Covers(b, d)
    ensures SimFocus(b, calls, d, n + 1, CodeStep(b, calls[n], k, f), IdealStep(b, calls[n], k, g))
    ensures LiveAt(f, calls[n].now) <==> LiveAt(g, calls[n].now)
    ensures LiveAt(f, calls[n].now) ==> Soft(b, calls[n], f.value) == Soft(b, calls[n], g.value)
  {
    SimExpires(b, calls, d, n, f, g);
    assert Met(b, calls, d, n, f, g);
    if LiveAt(f, calls[n].now) { SoftAgrees(b, calls, d, n, f, g); }
    if Early(b, calls[n]).Some? { EarlyKeyStep(b, calls, d, n, k, f, g); } else { SoftKeyStep(b, calls, d, n, k, f, g); }
  }

  ghost predicate SimAfter(b: Behavior, calls: seq<Call>, d: nat, n: nat)
    requires n <= |calls|
  {
    Sim(b, calls, d, n, After(b, calls, n), IdealAfter(b, calls, n))
  }

  ghost predicate SameDecision(b: Behavior, calls: seq<Call>, n: nat)
    requires n < |calls|
  {
    Decided(b, calls, n) == IdealDecided(b, calls, n)
  }

  lemma SimStep(b: Behavior, calls: seq<Call>, d: nat, n: nat)
    requires Admissible(b, calls, d) && n < |calls| && SimAfter(b, calls, d, n) && Covers(b, d)
    ensures SameDecision(b, calls, n) && SimAfter(b, calls, d, n + 1)
  {
    var m, ideal := After(b, calls, n), IdealAfter(b, calls, n);
    var x := calls[n].event.conversationID;
    assert SimFocus(b, calls, d, n, Look(m, x), Look(ideal, x));
    SimKeyStep(b, calls, d, n, x, Look(m, x), Look(ideal, x));
    DecisionsByKey(b, calls[n], m, ideal);
    var m', ideal' := After(b, calls, n + 1), IdealAfter(b, calls, n + 1);
    forall k ensures SimFocus(b, calls, d, n + 1, Look(m', k), Look(ideal', k)) {
      assert SimFocus(b, calls, d, n, Look(m, k), Look(ideal, k));
      SimKeyStep(b, calls, d, n, k, Look(m, k), Look(ideal, k));
      StepsByKey(b, calls[n], m, ideal, k);
    }
  }

  lemma SimStarts(b: Behavior, calls: seq<Call>, d: nat)
    ensures SimAfter(b, calls, d, 0)
  {
    assert forall k :: Look(map[], k) == None;
  }

  lemma {:induction false} SimHolds(b: Behavior, calls: seq<Call>, d: nat, n: nat)
    requires Admissible(b, calls, d) && n <= |calls| && Covers(b, d)
    ensures SimAfter(b, calls, d, n)
  {
    if n == 0 {
      SimStarts(b, calls, d);
    } else {
      SimHolds(b, calls, d, n - 1);
      SimStep(b, calls, d, n - 1);
    }
  }

  /** Lazy expiry and previews are invisible when a cooldown fits a focus's lifetime with room for how far times go back. */
  lemma LazyExpiryIsInvisible(b: Behavior, calls: seq<Call>, d: nat, n: nat)
    requires Admissible(b, calls, d) && n < |calls| && Covers(b, d)
    ensures SameDecision(b, calls, n)
  {
    SimHolds(b, calls, d, n);
    SimStep(b, calls, d, n);
  }

  ghost predicate Transparent(b: Behavior, d: nat) {
    forall calls: seq<Call> :: Admissible(b, calls, d) ==>
      forall n :: 0 <= n < |calls| ==> SameDecision(b, calls, n)
  }

  /** The code decides like the simple gate, on all histories whose times go back by at most `d`, exactly when `b` covers it. */
  lemma TransparentExactly(b: Behavior, d: nat)
    ensures Transparent(b, d) <==> Covers(b, d)
  {
    if Covers(b, d) {
      forall calls: seq<Call>, n | Admissible(b, calls, d) && 0 <= n < |calls| ensures SameDecision(b, calls, n) {
        LazyExpiryIsInvisible(b, calls, d, n);
      }
    } else {
      LongCooldownDiffers(b, d);
      assert !SameDecision(b, LongCooldownCalls(b, d), 4);
    }
  }

  function Mention(b: Behavior): Message { Message(b.userID + "x", "group", "m", true, true, false, false, true) }

  /** A mention and a soft message at `d`, a mention at zero, and when that focus expires a mention and a soft message. */
  function LongCooldownCalls(b: Behavior, d: nat): seq<Call> {
    var mention, soft := Mention(b), Mention(b).(mentioned := false);
    [Call(mention, d, true, true, On), Call(soft, d, true, true, On), Call(mention, 0, true, true, On),
     Call(mention, b.focusTTL, true, true, On), Call(soft, b.focusTTL, true, true, On)]
  }

  lemma LongCooldownMemories(b: Behavior, d: nat)
    requires b.focusTTL > 0
    ensures var calls, who, ttl := LongCooldownCalls(b, d), b.userID + "x", b.focusTTL;
      After(b, calls, 3) == map["group" := Focus(who, ttl, Some(d))] == IdealAfter(b, calls, 3)
  {
    var calls, who, ttl := LongCooldownCalls(b, d), b.userID + "x", b.focusTTL;
    assert |who| > |b.userID|;
    assert After(b, calls, 0) == map[] == IdealAfter(b, calls, 0);
    assert After(b, calls, 1) == map["group" := Focus(who, d + ttl, None)] == IdealAfter(b, calls, 1);
    assert After(b, calls, 2) == map["group" := Focus(who, d + ttl, Some(d))] == IdealAfter(b, calls, 2);
  }

  lemma LongCooldownIsAdmissible(b: Behavior, d: nat)
    requires b.focusTTL > 0
    ensures Admissible(b, LongCooldownCalls(b, d), d)
  {
    var times := Times(LongCooldownCalls(b, d));
    assert times == [d, d, 0, b.focusTTL, b.focusTTL];
  }

  lemma LongCooldownLastMemories(b: Behavior, d: nat)
    requires b.focusTTL > 0
    ensures var calls, who, ttl := LongCooldownCalls(b, d), b.userID + "x", b.focusTTL;
      && After(b, calls, 4) == map["group" := Focus(who, 2 * ttl, Some(d))]
      && IdealAfter(b, calls, 4) == map["group" := Focus(who, 2 * ttl, None)]
  {
    assert |b.userID + "x"| > |b.userID|;
    LongCooldownMemories(b, d);
  }

  lemma LongCooldownDiffers(b: Behavior, d: nat)
    requires b.focusTTL > 0 && 0 < b.softCooldown && b.focusTTL < b.softCooldown + d
    ensures var calls := LongCooldownCalls(b, d);
      Admissible(b, calls, d) && Decided(b, calls, 4).reason == SoftCooldown && IdealDecided(b, calls, 4).reason == SoftTrigger
  {
    var calls, who, ttl := LongCooldownCalls(b, d), b.userID + "x", b.focusTTL;
    assert |who| > |b.userID|;
    LongCooldownLastMemories(b, d);
    LongCooldownIsAdmissible(b, d);
  }

  /** Times that return to before an expiry that a call has passed do show: the code still has the focus. */
  lemma ReturningTimesDiffer(b: Behavior)
    requires b.focusTTL > 0
    ensures var private := Mention(b).(group := false, conversationID := "private");
      var calls := [Call(Mention(b), 0, true, true, On), Call(private, b.focusTTL, true, true, On),
                    Call(Mention(b).(mentioned := false), 0, true, true, On)];
      Decided(b, calls, 2).reason == SoftTrigger && IdealDecided(b, calls, 2).reason == GroupNoTrigger
  {
    var private := Mention(b).(group := false, conversationID := "private");
    var calls := [Call(Mention(b), 0, true, true, On), Call(private, b.focusTTL, true, true, On),
                  Call(Mention(b).(mentioned := false), 0, true, true, On)];
    assert |b.userID + "x"| > |b.userID|;
    assert After(b, calls, 0) == map[] == IdealAfter(b, calls, 0);
    assert After(b, calls, 1) == map["group" := Focus(b.userID + "x", b.focusTTL, None)] == IdealAfter(b, calls, 1);
    assert After(b, calls, 2) == After(b, calls, 1) && IdealAfter(b, calls, 2) == map[];
  }

  // ---- Soft triggers trace back to hard ones ----

  predicate SameParty(c: Call, d: Call) {
    c.event.conversationID == d.event.conversationID && c.event.sender == d.event.sender
  }

  /** Call `i` is a committed group trigger: hard, or soft within a focus lifetime of a traced one by the same sender. */
  ghost predicate Traced(b: Behavior, calls: seq<Call>, i: nat)
    requires i < |calls|
    decreases i
  {
    && calls[i].commit
    && (TakesFocus(Decided(b, calls, i))
        || (Decided(b, calls, i).reason == SoftTrigger
            && exists j :: 0 <= j < i && SameParty(calls[i], calls[j]) && calls[i].now - calls[j].now < b.focusTTL
                           && Traced(b, calls, j)))
  }

  ghost predicate Sourced(b: Behavior, calls: seq<Call>, n: nat, k: string, f: Focus)
    requires n <= |calls|
  {
    exists j :: 0 <= j < n && calls[j].event.conversationID == k && calls[j].event.sender == f.sender
                && f.expiresAt == calls[j].now + b.focusTTL && Traced(b, calls, j)
  }

  /** Every stored focus was set by a traced call. */
  lemma {:induction false} FocusesAreSourced(b: Behavior, calls: seq<Call>, n: nat)
    requires n <= |calls|
    ensures forall k :: k in After(b, calls, n) ==> Sourced(b, calls, n, k, After(b, calls, n)[k])
  {
    if n > 0 {
      FocusesAreSourced(b, calls, n - 1);
      forall k | k in After(b, calls, n) ensures Sourced(b, calls, n, k, After(b, calls, n)[k]) {
        if k in After(b, calls, n - 1) { assert Sourced(b, calls, n - 1, k, After(b, calls, n - 1)[k]); }
        FocusStaysSourced(b, calls, n - 1, k);
      }
    }
  }

  /** A focus that call `n` leaves is as before it, or call `n` set it. */
  lemma FocusStaysSourced(b: Behavior, calls: seq<Call>, n: nat, k: string)
    requires n < |calls| && k in After(b, calls, n + 1)
    requires k in After(b, calls, n) ==> Sourced(b, calls, n, k, After(b, calls, n)[k])
    ensures Sourced(b, calls, n + 1, k, After(b, calls, n + 1)[k])
  {
    var m, m', c := After(b, calls, n), After(b, calls, n + 1), calls[n];
    if !(k in m && m'[k] == m[k]) {
      assert k == c.event.conversationID && c.commit && m'[k].sender == c.event.sender;
      assert Traced(b, calls, n);
    }
  }

  /** Every soft trigger, previewed or committed, follows a traced trigger by its sender within a focus lifetime. */
  lemma SoftTriggersTraceBack(b: Behavior, calls: seq<Call>, i: nat)
    requires i < |calls| && Decided(b, calls, i).reason == SoftTrigger
    ensures exists j :: 0 <= j < i && SameParty(calls[i], calls[j]) && calls[i].now - calls[j].now < b.focusTTL
                        && Traced(b, calls, j)
    ensures calls[i].commit ==> Traced(b, calls, i)
  {
    FocusesAreSourced(b, calls, i);
    var m, k := After(b, calls, i), calls[i].event.conversationID;
    assert Sourced(b, calls, i, k, m[k]);
  }

  // ---- Soft triggers are spaced ----

  /** After the committed soft trigger `i`, a stamp no earlier is kept, or some focus went when the cooldown was over. */
  ghost predicate Cooling(b: Behavior, calls: seq<Call>, i: nat, n: nat, f: Option<Focus>)
    requires i < n <= |calls|
  {
    Stale(b, calls, n, Some(calls[i].now))
    || (f.Some? && f.value.sender == calls[i].event.sender && f.value.lastSoftAt.Some? && calls[i].now <= f.value.lastSoftAt.value)
  }

  predicate OtherTakesFocus(b: Behavior, calls: seq<Call>, n: nat, c: Call)
    requires n < |calls|
  {
    calls[n].commit && TakesFocus(Decided(b, calls, n))
    && calls[n].event.conversationID == c.event.conversationID && calls[n].event.sender != c.event.sender
  }

  predicate SameConversation(c: Call, d: Call) { c.event.conversationID == d.event.conversationID }

  predicate EarlyTakes(b: Behavior, c: Call) { Early(b, c).Some? && TakesFocus(Early(b, c).value) }

  lemma CoolingStarts(b: Behavior, calls: seq<Call>, i: nat)
    requires i < |calls| && calls[i].commit && Decided(b, calls, i).reason == SoftTrigger
    ensures Cooling(b, calls, i, i + 1, Look(After(b, calls, i + 1), calls[i].event.conversationID))
  {
    StepsByKey(b, calls[i], After(b, calls, i), map[], calls[i].event.conversationID);
  }

  /** One call by no other sender: a focus that goes has outlived the cooldown, and a later stamp is later. */
  lemma CoolingStep(b: Behavior, calls: seq<Call>, d: nat, i: nat, n: nat, f: Option<Focus>)
    requires Admissible(b, calls, d) && i < n < |calls| && 0 < b.softCooldown && b.softCooldown + d <= b.focusTTL
    requires Cooling(b, calls, i, n, f) && (f.Some? ==> Dated(b, calls, d, n, f.value))
    requires SameConversation(calls[i], calls[n]) && calls[n].commit && EarlyTakes(b, calls[n]) ==> SameParty(calls[n], calls[i])
    ensures Cooling(b, calls, i, n + 1, CodeStep(b, calls[n], calls[i].event.conversationID, f))
  {
    if Stale(b, calls, n, Some(calls[i].now)) {
      StaysStale(b, calls, d, n, Some(calls[i].now));
    } else if f.value.expiresAt <= calls[n].now {
      assert Gone(b, calls, n + 1, f.value.expiresAt);
      assert Stale(b, calls, n + 1, Some(calls[i].now));
    }
  }

  lemma {:induction false} CoolingLasts(b: Behavior, calls: seq<Call>, d: nat, i: nat, n: nat)
    requires Admissible(b, calls, d) && i < n <= |calls| && 0 < b.softCooldown && b.softCooldown + d <= b.focusTTL
    requires calls[i].commit && Decided(b, calls, i).reason == SoftTrigger
    requires forall x :: i < x < n ==> !OtherTakesFocus(b, calls, x, calls[i])
    ensures Cooling(b, calls, i, n, Look(After(b, calls, n), calls[i].event.conversationID))
  {
    if n == i + 1 {
      CoolingStarts(b, calls, i);
    } else {
      var k, m := calls[i].event.conversationID, After(b, calls, n - 1);
      CoolingLasts(b, calls, d, i, n - 1);
      SimHolds(b, calls, d, n - 1);
      assert SimFocus(b, calls, d, n - 1, Look(m, k), Look(IdealAfter(b, calls, n - 1), k));
      assert !OtherTakesFocus(b, calls, n - 1, calls[i]);
      CoolingStep(b, calls, d, i, n - 1, Look(m, k));
      StepsByKey(b, calls[n - 1], m, map[], k);
    }
  }

  /** Committed soft triggers of one sender are a cooldown apart unless someone else takes the focus in between. */
  lemma SoftTriggersAreSpaced(b: Behavior, calls: seq<Call>, d: nat, i: nat, j: nat)
    requires Admissible(b, calls, d) && i < j < |calls| && b.softCooldown + d <= b.focusTTL && (d == 0 || b.softCooldown > 0)
    requires SameParty(calls[i], calls[j])
    requires calls[i].commit && Decided(b, calls, i).reason == SoftTrigger && Decided(b, calls, j).reason == SoftTrigger
    requires forall x :: i < x < j ==> !OtherTakesFocus(b, calls, x, calls[i])
    ensures calls[i].now + b.softCooldown <= calls[j].now
  {
    if b.softCooldown > 0 {
      CoolingLasts(b, calls, d, i, j);
      if Stale(b, calls, j, Some(calls[i].now)) { StaysStale(b, calls, d, j, Some(calls[i].now)); }
    }
  }
}
