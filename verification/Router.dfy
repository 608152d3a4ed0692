/** The model router's attempts, its back-off and its cost arithmetic in 64 bits (model.go). */
module Router {
  import opened Common

  // ---- Attempts ----

  datatype Outcome = Success | Failure(retryable: bool, fallbackAllowed: bool)

  /** Attempt number `attempt` with candidate number `candidate`. */
  datatype Attempt = Attempt(candidate: nat, attempt: nat, outcome: Outcome)

  datatype Result = Completed | Failed(failure: Outcome) | Cancelled | NoCandidate

  /** What the providers answer to each attempt, and whether the wait after a failed one is cut short. */
  datatype World = World(answers: (nat, nat) -> Outcome, cuts: (nat, nat) -> bool)

  /** Every logged attempt has the world's answer, and every wait but one at the end was waited out. */
  ghost predicate Faithful(log: seq<Attempt>, r: Option<Result>, w: World) {
    && (forall i :: 0 <= i < |log| ==> log[i].outcome == w.answers(log[i].candidate, log[i].attempt))
    && (forall i :: 0 <= i < |log| - 1 && log[i].candidate == log[i + 1].candidate ==> !w.cuts(log[i].candidate, log[i].attempt))
    && (r == Some(Cancelled) ==> log != [] && w.cuts(log[|log| - 1].candidate, log[|log| - 1].attempt))
  }

  /** What may follow an attempt: a retry of a retryable failure, or the next candidate when no retry is left. */
  predicate Follows(a: Attempt, b: Attempt, retries: seq<nat>)
    requires a.candidate < |retries|
  {
    a.outcome.Failure? &&
    if a.outcome.retryable && a.attempt <= retries[a.candidate] then b.candidate == a.candidate && b.attempt == a.attempt + 1
    else a.outcome.fallbackAllowed && b.candidate == a.candidate + 1 && b.attempt == 1
  }

  /** Attempt `i` of the log is within bounds, and is the first of all or follows the one before it. */
  predicate ValidAt(log: seq<Attempt>, i: nat, retries: seq<nat>)
    requires i < |log|
  {
    var a := log[i];
    && a.candidate < |retries| && 1 <= a.attempt <= retries[a.candidate] + 1
    && if i == 0 then a.candidate == 0 && a.attempt == 1
       else log[i - 1].candidate < |retries| && Follows(log[i - 1], a, retries)
  }

  predicate ValidLog(log: seq<Attempt>, retries: seq<nat>) { forall i :: 0 <= i < |log| ==> ValidAt(log, i, retries) }

  /** The most attempts the first `n` candidates allow. */
  function Budget(retries: seq<nat>, n: nat): nat
    requires n <= |retries|
  {
    if n == 0 then 0 else Budget(retries, n - 1) + retries[n - 1] + 1
  }

  lemma {:induction false} BudgetGrows(retries: seq<nat>, m: nat, n: nat)
    requires m <= n <= |retries|
    ensures Budget(retries, m) <= Budget(retries, n)
    decreases n
  {
    if m < n { BudgetGrows(retries, m, n - 1); }
  }

  lemma {:induction false} PositionIsBounded(log: seq<Attempt>, retries: seq<nat>, i: nat)
    requires ValidLog(log, retries) && i < |log|
    ensures log[i].candidate < |retries| && i < Budget(retries, log[i].candidate) + log[i].attempt
  {
    assert ValidAt(log, i, retries);
    if i > 0 {
      PositionIsBounded(log, retries, i - 1);
      var c := log[i - 1].candidate;
      assert Budget(retries, c + 1) == Budget(retries, c) + retries[c] + 1;
      assert ValidAt(log, i - 1, retries);
    }
  }

  /** There are never more attempts than the candidates' retries allow. */
  lemma AttemptsAreBounded(log: seq<Attempt>, retries: seq<nat>)
    requires ValidLog(log, retries)
    ensures |log| <= Budget(retries, |retries|)
  {
    if log != [] {
      var last := log[|log| - 1];
      PositionIsBounded(log, retries, |log| - 1);
      assert ValidAt(log, |log| - 1, retries);
      BudgetGrows(retries, last.candidate + 1, |retries|);
    }
  }

  /** The next candidate is only tried after a failure of the one before that allows falling back. */
  lemma {:induction false} FallbacksAreAllowed(log: seq<Attempt>, retries: seq<nat>, i: nat) returns (k: nat)
    requires ValidLog(log, retries) && i < |log| && log[i].candidate > 0
    ensures k < i && log[k].candidate == log[i].candidate - 1 && log[k + 1].candidate == log[i].candidate
    ensures log[k].outcome.Failure? && log[k].outcome.fallbackAllowed
  {
    assert ValidAt(log, i, retries);
    if log[i - 1].candidate == log[i].candidate {
      k := FallbacksAreAllowed(log, retries, i - 1);
    } else {
      k := i - 1;
    }
  }

  /** An attempt with these numbers may come next. */
  predicate Ready(log: seq<Attempt>, candidate: nat, attempt: nat, retries: seq<nat>) {
    && ValidLog(log, retries) && candidate < |retries| && 1 <= attempt <= retries[candidate] + 1
    && if log == [] then candidate == 0 && attempt == 1
       else log[|log| - 1].candidate < |retries| && Follows(log[|log| - 1], Attempt(candidate, attempt, Success), retries)
  }

  lemma NextIsValid(log: seq<Attempt>, a: Attempt, retries: seq<nat>)
    requires Ready(log, a.candidate, a.attempt, retries)
    ensures ValidLog(log + [a], retries)
    ensures a.outcome.Failure? && a.outcome.retryable && a.attempt <= retries[a.candidate] ==>
      Ready(log + [a], a.candidate, a.attempt + 1, retries)
  {
    var all := log + [a];
    forall i | 0 <= i < |all| ensures ValidAt(all, i, retries) {
      if i < |log| { assert ValidAt(log, i, retries); }
    }
  }

  /** A failure after which its candidate is not tried again. */
  predicate Spent(a: Attempt, retries: seq<nat>) {
    a.candidate < |retries| && a.outcome.Failure? && !(a.outcome.retryable && a.attempt <= retries[a.candidate])
  }

  /** The failure `a` of the candidate before `next` leads to it. */
  predicate Leads(a: Attempt, next: nat, retries: seq<nat>) {
    Spent(a, retries) && a.candidate + 1 == next && a.outcome.fallbackAllowed
  }

  lemma LeadsOn(log: seq<Attempt>, next: nat, retries: seq<nat>)
    requires ValidLog(log, retries) && next < |retries|
    requires if next == 0 then log == [] else log != [] && Leads(log[|log| - 1], next, retries)
    ensures Ready(log, next, 1, retries)
  {
  }

  /** The attempts with one candidate, and the waits between them, as the world has it. */
  method TryCandidate(log: seq<Attempt>, candidate: nat, retries: seq<nat>, w: World) returns (all: seq<Attempt>, end: Option<Result>)
    requires Ready(log, candidate, 1, retries) && Faithful(log, None, w)
    requires log != [] ==> log[|log| - 1].candidate != candidate
    ensures all != [] && ValidLog(all, retries) && all[|all| - 1].candidate == candidate && Faithful(all, end, w)
    ensures match end
      case None => Spent(all[|all| - 1], retries)
      case Some(r) => (r.Completed? || r.Cancelled?) && Explains(r, all, retries)
  {
    all := log;
    var attempt := 1;
    while true
      invariant Ready(all, candidate, attempt, retries) && Faithful(all, None, w)
      invariant all != [] && all[|all| - 1].candidate == candidate ==> !w.cuts(candidate, all[|all| - 1].attempt)
      decreases retries[candidate] + 1 - attempt
    {
      var a := Attempt(candidate, attempt, w.answers(candidate, attempt));
      NextIsValid(all, a, retries);
      all := all + [a];
      if a.outcome.Success? { return all, Some(Completed); }
      if !a.outcome.retryable || attempt > retries[candidate] { return all, None; }
      if w.cuts(candidate, attempt) { return all, Some(Cancelled); }
      attempt := attempt + 1;
    }
  }

  /** What each result says about the attempts that led to it. */
  predicate Explains(r: Result, log: seq<Attempt>, retries: seq<nat>) {
    if r.NoCandidate? then log == [] && retries == [] else
      log != [] && var a := log[|log| - 1];
      match r
      case Completed => a.outcome.Success?
      case Cancelled => a.outcome.Failure? && !Spent(a, retries)
      case Failed(f) => f == a.outcome && Spent(a, retries) && (a.candidate + 1 == |retries| || !f.fallbackAllowed)
  }

  /** The candidates in their order, as far as failures allow. */
  method CompleteRequest(retries: seq<nat>, w: World) returns (r: Result, log: seq<Attempt>)
    ensures ValidLog(log, retries) && Explains(r, log, retries) && Faithful(log, Some(r), w)
  {
    log := [];
    for candidate := 0 to |retries|
      invariant ValidLog(log, retries) && Faithful(log, None, w)
      invariant if candidate == 0 then log == [] else log != [] && Leads(log[|log| - 1], candidate, retries)
    {
      LeadsOn(log, candidate, retries);
      var end;
      log, end := TryCandidate(log, candidate, retries, w);
      if end.Some? { return end.value, log; }
      var last := log[|log| - 1].outcome;
      if !last.fallbackAllowed { return Failed(last), log; }
    }
    r := if log == [] then NoCandidate else Failed(log[|log| - 1].outcome);
  }

  // ---- What a complete log says ----

  /** No candidate is passed over, the first is tried first, and an attempt number says how often its candidate was tried. */
  lemma EveryAttemptFollows(log: seq<Attempt>, retries: seq<nat>, i: nat)
    requires ValidLog(log, retries) && i < |log|
    ensures i == 0 ==> log[i].candidate == 0 && log[i].attempt == 1
    ensures i > 0 ==> var a, b := log[i - 1], log[i];
      || (b.candidate == a.candidate && b.attempt == a.attempt + 1 && a.outcome.Failure? && a.outcome.retryable)
      || (b.candidate == a.candidate + 1 && b.attempt == 1 && a.outcome.Failure? && a.outcome.fallbackAllowed)
  {
    assert ValidAt(log, i, retries);
  }

  /**
   * After a success nothing more is tried. A retryable failure with a retry left is retried, unless the wait is cut short;
   * any other is the last of its candidate, and the next candidate follows if the failure allows it and there is one.
   */
  lemma EveryAttemptIsFollowedUp(retries: seq<nat>, log: seq<Attempt>, r: Result, w: World, i: nat)
    requires ValidLog(log, retries) && Explains(r, log, retries) && Faithful(log, Some(r), w) && i < |log|
    ensures log[i].candidate < |retries|
    ensures var a, last := log[i], i == |log| - 1;
      var retry := a.outcome.Failure? && a.outcome.retryable && a.attempt <= retries[a.candidate];
      var next := a.outcome.Failure? && !retry && a.outcome.fallbackAllowed && a.candidate + 1 < |retries|;
      && (a.outcome.Success? ==> last && r == Completed)
      && (retry ==> if w.cuts(a.candidate, a.attempt) then last && r == Cancelled
                    else !last && log[i + 1].candidate == a.candidate && log[i + 1].attempt == a.attempt + 1)
      && (next ==> !last && log[i + 1].candidate == a.candidate + 1 && log[i + 1].attempt == 1)
      && (a.outcome.Failure? && !retry && !next ==> last && r == Failed(a.outcome))
  {
    assert ValidAt(log, i, retries);
    if i + 1 < |log| { assert ValidAt(log, i + 1, retries); }
  }

  /** So the world decides the log and the result: no two runs of one request differ. */
  lemma {:induction false} LogIsDetermined(retries: seq<nat>, a: seq<Attempt>, r: Result, b: seq<Attempt>, t: Result, w: World, n: nat)
    requires ValidLog(a, retries) && Explains(r, a, retries) && Faithful(a, Some(r), w)
    requires ValidLog(b, retries) && Explains(t, b, retries) && Faithful(b, Some(t), w)
    requires n <= |a|
    ensures n <= |b| && a[..n] == b[..n]
  {
    if n > 0 {
      LogIsDetermined(retries, a, r, b, t, w, n - 1);
      EveryAttemptFollows(a, retries, n - 1);
      if n == 1 {
        assert a != [] ==> retries != [] by { assert ValidAt(a, 0, retries); }
        assert b != [];
        EveryAttemptFollows(b, retries, 0);
      } else {
        assert a[n - 2] == a[..n - 1][n - 2] && b[n - 2] == b[..n - 1][n - 2];
        EveryAttemptIsFollowedUp(retries, a, r, w, n - 2);
        EveryAttemptIsFollowedUp(retries, b, t, w, n - 2);
      }
    }
  }

  /** And the result is the only one that explains the log. */
  lemma ResultIsDetermined(retries: seq<nat>, a: seq<Attempt>, r: Result, b: seq<Attempt>, t: Result, w: World)
    requires ValidLog(a, retries) && Explains(r, a, retries) && Faithful(a, Some(r), w)
    requires ValidLog(b, retries) && Explains(t, b, retries) && Faithful(b, Some(t), w)
    ensures a == b && r == t
    ensures r == NoCandidate <==> retries == []
  {
    LogIsDetermined(retries, a, r, b, t, w, |a|);
    LogIsDetermined(retries, b, t, a, r, w, |b|);
    assert a[..|a|] == a && b[..|b|] == b;
    if a != [] {
      assert ValidAt(a, 0, retries);
      EveryAttemptIsFollowedUp(retries, a, r, w, |a| - 1);
      EveryAttemptIsFollowedUp(retries, b, t, w, |a| - 1);
    }
  }

  // ---- Back-off ----

  const CAP := 5_000_000_000  // five seconds in nanoseconds

  function Power(k: nat): nat { if k == 0 then 1 else 2 * Power(k - 1) }

  /** The first delay is the base, each further one twice the one before, and none is over five seconds. */
  lemma DelaysDouble(base: nat, retry: nat)
    ensures Min(base * Power(0), CAP) == Min(base, 5_000_000_000)
    ensures Min(base * Power(retry + 1), CAP) == Min(2 * Min(base * Power(retry), CAP), 5_000_000_000)
  {
    Doubles(base, Power(retry));
  }

  lemma Doubles(a: nat, b: nat)
    ensures a * (2 * b) == 2 * (a * b)
  {
  }

  lemma {:induction false} PowerSplits(j: nat, k: nat)
    requires j <= k
    ensures Power(k) == Power(j) * Power(k - j) && Power(k - j) >= 1
    decreases k - j
  {
    if j < k { PowerSplits(j + 1, k); }
  }

  /** The base doubled `retry` times, but no more than five seconds; on the way it never exceeds ten. */
  method RetryDelay(base: int, retry: int) returns (delay: int)
    requires base >= 0
    ensures delay == Min(base * Power(if retry < 0 then 0 else retry), CAP)
  {
    var k := if retry < 0 then 0 else retry;
    delay := base;
    var index := 0;
    while index < k && delay < CAP
      invariant 0 <= index <= k && delay == base * Power(index)
      invariant delay <= 2 * CAP || index == 0
    {
      delay := delay * 2;
      index := index + 1;
    }
    PowerSplits(index, k);
    Scales(base, Power(index), Power(k - index));
    if delay > CAP { delay := CAP; }
  }

  lemma Scales(base: nat, a: nat, b: nat)
    requires b >= 1
    ensures base * (a * b) >= base * a
  {
  }

  // ---- Cost ----

  /** A result as a signed 64-bit machine keeps it. */
  function Wrap(x: int): int { (x + 0x8000_0000_0000_0000) % 0x1_0000_0000_0000_0000 - 0x8000_0000_0000_0000 }

  const MILLION := 1_000_000

  /** Both divisions are of non-negative numbers, where truncation is the floor. */
  function TokenCost(tokens: int, price: int): int {
    if tokens <= 0 || price <= 0 then 0 else
      var whole, rest := tokens / MILLION, tokens % MILLION;
      Wrap(Wrap(whole * price) + Wrap(rest * price) / MILLION)
  }

  predicate InRange(tokens: int, price: int) { tokens <= 1_000_000_000 && price <= 1_000_000_000_000 }

  lemma Products(a: nat, b: nat, c: nat, d: nat)
    requires a <= c && b <= d
    ensures 0 <= a * b <= c * d
  {
  }

  /** Within the configured limits the cost is the exact floor: no step overflows. */
  lemma CostIsExact(tokens: int, price: int)
    requires InRange(tokens, price)
    ensures TokenCost(tokens, price) == if tokens <= 0 || price <= 0 then 0 else tokens * price / MILLION
  {
    if tokens > 0 && price > 0 {
      var whole, rest := tokens / MILLION, tokens % MILLION;
      Products(whole, price, 1000, 1_000_000_000_000);
      Products(rest, price, 1_000_000, 1_000_000_000_000);
      FloorSplits(whole * price, rest * price);
      Distribute(whole, MILLION, rest, price);
      assert whole * MILLION + rest == tokens;
      NoWrap(whole * price, rest * price);
    }
  }

  lemma Distribute(w: int, m: int, r: int, p: int)
    ensures (w * m + r) * p == (w * p) * m + r * p
  {
  }

  lemma NoWrap(a: nat, b: nat)
    requires a <= 1_000_000_000_000_000 && b <= 1_000_000_000_000_000_000
    ensures Wrap(Wrap(a) + Wrap(b) / MILLION) == a + b / MILLION
  {
  }

  lemma FloorSplits(a: nat, b: nat)
    ensures (a * MILLION + b) / MILLION == a + b / MILLION
  {
  }

  /** The direct product would overflow within the same limits. */
  lemma DirectProductOverflows()
    ensures exists tokens, price ::
      InRange(tokens, price) && tokens > 0 && price > 0 && Wrap(tokens * price) / MILLION != tokens * price / MILLION
  {
    assert InRange(1_000_000_000, 1_000_000_000_000);
    assert Wrap(1_000_000_000 * 1_000_000_000_000) / MILLION != 1_000_000_000 * 1_000_000_000_000 / MILLION;
  }
}
