/** Bounded client performance samples and the rate windows that admit reports (collector.go). */
module Collector {
  import opened Common

  const DEFAULT_CAPACITY := 500
  const WINDOW := 60_000  // one minute in milliseconds
  const MAX_REPORTS := 60
  const MAX_CLIENTS := 4096

  // ---- The ring of samples ----

  datatype Report = Report(
    warm: Option<bool>, metadataFits: bool, interactive: int, firstPaint: int, transferBytes: int, decodedBytes: int,
    resources: int, cacheHits: int)

  datatype Sample = Sample(report: Report, receivedAt: int)

  const MAX_LOAD := 600_000
  const MAX_BYTES := 0x8000_0000

  predicate Acceptable(r: Report) {
    && r.metadataFits && r.warm.Some? && 0 < r.interactive <= MAX_LOAD && 0 <= r.firstPaint <= MAX_LOAD
    && 0 <= r.transferBytes <= MAX_BYTES && 0 <= r.decodedBytes <= MAX_BYTES
    && 0 <= r.resources <= 10000 && 0 <= r.cacheHits <= r.resources
  }

  /** A report is refused exactly for one of these. */
  lemma ReportsRefusedExactly(r: Report)
    ensures !Acceptable(r) <==>
      || !r.metadataFits || r.warm.None? || r.interactive <= 0 || r.interactive > 600_000
      || r.firstPaint < 0 || r.firstPaint > 600_000 || r.transferBytes < 0 || r.transferBytes > 0x8000_0000
      || r.decodedBytes < 0 || r.decodedBytes > 0x8000_0000
      || r.resources < 0 || r.resources > 10000 || r.cacheHits < 0 || r.cacheHits > r.resources
  {
  }

  /** The last `n` elements, or all if there are fewer. */
  function Last<T>(s: seq<T>, n: nat): seq<T> { if |s| <= n then s else s[|s| - n..] }

  /** The newest elements stay, in order, and one more drives out the oldest of a full ring. */
  lemma LastExactly<T>(s: seq<T>, x: T, n: nat)
    ensures |Last(s, n)| == (if |s| <= n then |s| else n)
    ensures forall i :: 0 <= i < |Last(s, n)| ==> Last(s, n)[i] == s[|s| - |Last(s, n)| + i]
    ensures n > 0 ==> Last(s + [x], n) == (if |s| < n then Last(s, n) else Last(s, n)[1..]) + [x]
  {
  }

  class Ring {
    var samples: seq<Sample>
    const capacity: nat
    var next: nat
    var total: nat
    ghost var history: seq<Sample>

    constructor (capacity: int)
      ensures Valid() && history == [] && this.capacity > 0
    {
      this.capacity := if capacity <= 0 then DEFAULT_CAPACITY else capacity;
      samples, next, total, history := [], 0, 0, [];
    }

    /** The retained samples are the newest ones, oldest first from `next` on once the ring is full. */
    ghost predicate Valid() reads this {
      && capacity > 0 && total == |history| && |samples| == Min(total, capacity)
      && (if total < capacity then next == 0 else next < capacity)
      && next <= |samples| && samples[next..] + samples[..next] == Last(history, capacity)
    }

    method Record(report: Report, receivedAt: int) returns (ok: bool)
      requires Valid()
      modifies this
      ensures Valid() && ok == Acceptable(report)
      ensures history == if ok then old(history) + [Sample(report, receivedAt)] else old(history)
    {
      if !Acceptable(report) { return false; }
      var sample := Sample(report, receivedAt);
      ghost var was, oldest := history, samples[next..] + samples[..next];
      total := total + 1;
      history := history + [sample];
      if |samples| < capacity {
        samples := samples + [sample];
        assert samples[0..] + samples[..0] == samples;
        return true;
      }
      assert oldest[1..] + [sample] == Last(history, capacity);
      var so := samples;
      samples := samples[next := sample];
      if next + 1 == capacity {
        assert samples == oldest[1..] + [sample];
        next := 0;
        assert samples[0..] + samples[..0] == samples;
      } else {
        assert samples[next + 1..] == so[next + 1..] && samples[..next + 1] == so[..next] + [sample];
        assert oldest[1..] == so[next + 1..] + so[..next];
        next := next + 1;
      }
      ok := true;
    }
  }

  // ---- Rate windows ----

  datatype Window = Window(started: int, count: nat)

  type Rates = map<string, Window>

  /** An admitted report, with the start of the window that counted it. */
  datatype Admission = Admission(key: string, at: int, started: int)

  /** A full table first drops the windows that are over. */
  function Pruned(rates: Rates, now: int): Rates {
    if |rates| >= MAX_CLIENTS then map k | k in rates && now - rates[k].started < WINDOW :: rates[k] else rates
  }

  predicate Refused(rates: Rates, key: string, now: int) { key !in Pruned(rates, now) && |Pruned(rates, now)| >= MAX_CLIENTS }

  /** The window that counts a report of now. */
  function WindowOf(rates: Rates, key: string, now: int): Window {
    var r := Pruned(rates, now);
    if key in r && now - r[key].started < WINDOW then r[key] else Window(now, 0)
  }

  function Counted(rates: Rates, key: string, now: int): Rates {
    if Refused(rates, key, now) then Pruned(rates, now) else
      var w := WindowOf(rates, key, now);
      Pruned(rates, now)[key := Window(w.started, w.count + 1)]
  }

  predicate Admits(rates: Rates, key: string, now: int) {
    !Refused(rates, key, now) && WindowOf(rates, key, now).count < MAX_REPORTS
  }

  predicate Fresh(rates: Rates, key: string, now: int) { key in rates && now - rates[key].started < WINDOW }

  /** How many entries stand in the way of a new key: of a full table, those whose window is not over. */
  ghost function Standing(rates: Rates, now: int): set<string> {
    if |rates| < 4096 then rates.Keys else set k | k in rates && Fresh(rates, k, now)
  }

  lemma PrunedIs(rates: Rates, now: int)
    ensures Pruned(rates, now).Keys == Standing(rates, now) && |Pruned(rates, now)| == |Standing(rates, now)|
    ensures forall k :: k in Pruned(rates, now) ==> Pruned(rates, now)[k] == rates[k]
  {
    assert |Pruned(rates, now).Keys| == |Pruned(rates, now)|;
  }

  /**
   * A report is admitted exactly when its key has a window with room, or the table has room for a new one: fewer than sixty
   * were counted in the last minute's window. It is counted either way, unless the table refuses a new key.
   */
  lemma AllowExactly(rates: Rates, key: string, now: int)
    ensures var full := key !in Standing(rates, now) && |Standing(rates, now)| >= 4096;
      var w := if Fresh(rates, key, now) then rates[key] else Window(now, 0);
      var r := Counted(rates, key, now);
      && (Admits(rates, key, now) <==> !full && w.count < 60)
      && (forall k :: k != key ==> (k in r <==> k in Standing(rates, now)) && (k in r ==> r[k] == rates[k]))
      && (full ==> key !in r) && (!full ==> key in r && r[key] == Window(w.started, w.count + 1))
  {
    PrunedIs(rates, now);
  }

  class RateTable {
    var rates: Rates

    constructor ()
      ensures rates == map[]
    {
      rates := map[];
    }

    method Allow(key: string, now: int) returns (ok: bool)
      modifies this
      ensures rates == Counted(old(rates), key, now) && ok == Admits(old(rates), key, now)
    {
      if |rates| >= MAX_CLIENTS { Prune(now); }
      if key !in rates && |rates| >= MAX_CLIENTS { return false; }
      var w := if key in rates then rates[key] else Window(now, 0);
      if now - w.started >= WINDOW { w := Window(now, 0); }
      w := Window(w.started, w.count + 1);
      rates := rates[key := w];
      ok := w.count <= MAX_REPORTS;
    }

    method Prune(now: int)
      requires |rates| >= MAX_CLIENTS
      modifies this
      ensures rates == Pruned(old(rates), now)
    {
      var keys := rates.Keys;
      while keys != {}
        invariant keys <= old(rates).Keys
        invariant forall k :: k in rates <==> k in old(rates) && (k in keys || now - old(rates)[k].started < WINDOW)
        invariant forall k :: k in rates ==> rates[k] == old(rates)[k]
        decreases |keys|
      {
        var key :| key in keys;
        if now - rates[key].started >= WINDOW { rates := rates - {key}; }
        keys := keys - {key};
      }
    }
  }

  // ---- Runs ----

  /** `times` are those of all calls so far, refused ones included. */
  datatype State = State(rates: Rates, admitted: seq<Admission>, times: seq<int>)

  function Step(s: State, key: string, now: int): State {
    State(Counted(s.rates, key, now),
      if Admits(s.rates, key, now) then s.admitted + [Admission(key, now, WindowOf(s.rates, key, now).started)] else s.admitted,
      s.times + [now])
  }

  function Count(log: seq<Admission>, p: Admission -> bool): nat
    decreases |log|
  {
    if log == [] then 0 else Count(log[..|log| - 1], p) + if p(log[|log| - 1]) then 1 else 0
  }

  function InWindow(key: string, started: int): Admission -> bool { (a: Admission) => a.key == key && a.started == started }

  function InInterval(key: string, from: int): Admission -> bool { (a: Admission) => a.key == key && from <= a.at < from + WINDOW }

  /** Windows of one key start at least a window apart, and none counts a report of an earlier one's time. */
  predicate Apart(a: Admission, b: Admission) {
    a.key == b.key && a.started < b.started ==> a.started + WINDOW <= b.started && a.started + WINDOW <= b.at
  }

  /** A call has left the window that an earlier one began. */
  ghost predicate Left(times: seq<int>, started: int) {
    exists i, j :: 0 <= i < j < |times| && times[i] == started && started + WINDOW <= times[j]
  }

  predicate Open(s: State, a: Admission) { a.key in s.rates && a.started == s.rates[a.key].started }

  /** What an admission says about the table: its window is still there, or a call has left it. */
  ghost predicate Behind(s: State, a: Admission) {
    && a.at < a.started + WINDOW && (Open(s, a) || Left(s.times, a.started))
    && (a.key in s.rates ==> Open(s, a) || a.started + WINDOW <= s.rates[a.key].started)
  }

  ghost predicate Inv(s: State) {
    && |s.rates| <= MAX_CLIENTS
    && (forall k :: k in s.rates ==> s.rates[k].started in s.times)
    && (forall a :: a in s.admitted ==> Behind(s, a))
    && (forall a, b :: a in s.admitted && b in s.admitted ==> Apart(a, b))
    && (forall k, t :: Count(s.admitted, InWindow(k, t)) <= MAX_REPORTS)
    && (forall k :: k in s.rates ==> Count(s.admitted, InWindow(k, s.rates[k].started)) <= s.rates[k].count)
  }

  lemma PrunedIsSmaller(rates: Rates, now: int)
    ensures |Pruned(rates, now)| <= |rates|
  {
    var r := Pruned(rates, now);
    assert r.Keys <= rates.Keys;
    SubsetSize(r.Keys, rates.Keys);
    assert |r.Keys| == |r| && |rates.Keys| == |rates|;
  }

  /** The table never outgrows its bound, whatever the clock does. */
  lemma TableIsBounded(rates: Rates, key: string, now: int)
    requires |rates| <= MAX_CLIENTS
    ensures |Counted(rates, key, now)| <= MAX_CLIENTS
  {
    PrunedIsSmaller(rates, now);
    var r, c := Pruned(rates, now), Counted(rates, key, now);
    if !Refused(rates, key, now) {
      assert c.Keys == r.Keys + {key} && |c.Keys| == |c| && |r.Keys| == |r|;
      if key in r { assert c.Keys == r.Keys; }
    }
  }

  lemma {:induction false} NobodyCounted(log: seq<Admission>, p: Admission -> bool)
    requires forall a :: a in log ==> !p(a)
    ensures Count(log, p) == 0
    decreases |log|
  {
    if log != [] { NobodyCounted(log[..|log| - 1], p); }
  }

  lemma LeftForGood(times: seq<int>, now: int, started: int)
    requires NeverReturns(times + [now], WINDOW) && Left(times, started)
    ensures started + WINDOW <= now && Left(times + [now], started)
  {
    var i, j :| 0 <= i < j < |times| && times[i] == started && started + WINDOW <= times[j];
    var more := times + [now];
    assert more[i] == started && more[j] == times[j] && more[|times|] == now;
    assert !Returns(more, WINDOW, i, j, |times|);
  }

  lemma LeftNow(times: seq<int>, now: int, started: int)
    requires started in times && started + WINDOW <= now
    ensures Left(times + [now], started)
  {
    var i :| 0 <= i < |times| && times[i] == started;
    assert (times + [now])[i] == started && (times + [now])[|times|] == now;
  }

  /** Pruning, and a new window, only touch windows that are over for good. */
  lemma NewWindowIsLater(s: State, key: string, now: int, a: Admission)
    requires Inv(s) && NeverReturns(s.times + [now], WINDOW) && a in s.admitted && a.key == key
    ensures var w := WindowOf(s.rates, key, now);
      a.started == w.started || (a.started + WINDOW <= w.started && a.started + WINDOW <= now)
    ensures !(key in s.rates && now - s.rates[key].started < WINDOW) ==> a.started + WINDOW <= now
  {
    if !Open(s, a) { LeftForGood(s.times, now, a.started); }
  }

  lemma StaysBehind(s: State, key: string, now: int, a: Admission)
    requires Inv(s) && NeverReturns(s.times + [now], WINDOW) && a in s.admitted
    ensures Behind(Step(s, key, now), a)
  {
    if Open(s, a) {
      if a.started + WINDOW <= now { LeftNow(s.times, now, a.started); }
    } else {
      LeftForGood(s.times, now, a.started);
    }
  }

  lemma StepKeepsBehind(s: State, key: string, now: int)
    requires Inv(s) && NeverReturns(s.times + [now], WINDOW)
    ensures forall a :: a in Step(s, key, now).admitted ==> Behind(Step(s, key, now), a)
    ensures forall a, b :: a in Step(s, key, now).admitted && b in Step(s, key, now).admitted ==> Apart(a, b)
  {
    forall a | a in s.admitted ensures Behind(Step(s, key, now), a) { StaysBehind(s, key, now, a); }
    forall a | a in s.admitted && a.key == key
      ensures var w := WindowOf(s.rates, key, now);
        a.started == w.started || (a.started + WINDOW <= w.started && a.started + WINDOW <= now)
    {
      NewWindowIsLater(s, key, now, a);
    }
  }

  lemma StepKeepsCounts(s: State, key: string, now: int)
    requires Inv(s) && NeverReturns(s.times + [now], WINDOW)
    ensures var s' := Step(s, key, now);
      && (forall k, t :: Count(s'.admitted, InWindow(k, t)) <= MAX_REPORTS)
      && (forall k :: k in s'.rates ==> Count(s'.admitted, InWindow(k, s'.rates[k].started)) <= s'.rates[k].count)
  {
    var s', w := Step(s, key, now), WindowOf(s.rates, key, now);
    assert Count(s.admitted, InWindow(key, w.started)) <= w.count by {
      if !(key in s.rates && now - s.rates[key].started < WINDOW) {
        forall a | a in s.admitted ensures !InWindow(key, now)(a) {
          if a.key == key { NewWindowIsLater(s, key, now, a); }
        }
        NobodyCounted(s.admitted, InWindow(key, now));
      }
    }
    if Admits(s.rates, key, now) { assert s'.admitted[..|s'.admitted| - 1] == s.admitted; }
  }

  lemma StepKeepsInv(s: State, key: string, now: int)
    requires Inv(s) && NeverReturns(s.times + [now], WINDOW)
    ensures Inv(Step(s, key, now))
  {
    TableIsBounded(s.rates, key, now);
    StepKeepsBehind(s, key, now);
    StepKeepsCounts(s, key, now);
  }

  function Run(calls: seq<(string, int)>): State
    decreases |calls|
  {
    if calls == [] then State(map[], [], []) else
      var n := |calls| - 1;
      Step(Run(calls[..n]), calls[n].0, calls[n].1)
  }

  lemma NeverReturnsPrefix(times: seq<int>, now: int)
    requires NeverReturns(times + [now], WINDOW)
    ensures NeverReturns(times, WINDOW)
  {
    forall i: nat, j: nat, k: nat ensures !Returns(times, WINDOW, i, j, k) { assert !Returns(times + [now], WINDOW, i, j, k); }
  }

  lemma {:induction false} RunKeepsInv(calls: seq<(string, int)>)
    requires NeverReturns(Run(calls).times, WINDOW)
    ensures Inv(Run(calls))
    decreases |calls|
  {
    if calls != [] {
      var n := |calls| - 1;
      var before := Run(calls[..n]);
      NeverReturnsPrefix(before.times, calls[n].1);
      RunKeepsInv(calls[..n]);
      StepKeepsInv(before, calls[n].0, calls[n].1);
    }
  }

  /** The times of a run are those of its calls; times that do not go back never return. */
  lemma {:induction false} TimesOfRun(calls: seq<(string, int)>)
    ensures Run(calls).times == seq(|calls|, i requires 0 <= i < |calls| => calls[i].1)
    ensures (forall i, j :: 0 <= i < j < |calls| ==> calls[i].1 <= calls[j].1) ==> NeverReturns(Run(calls).times, WINDOW)
    decreases |calls|
  {
    if calls != [] { TimesOfRun(calls[..|calls| - 1]); }
  }

  lemma {:induction false} CountCovers(log: seq<Admission>, p: Admission -> bool, q: Admission -> bool, r: Admission -> bool)
    requires forall a :: a in log && p(a) ==> q(a) || r(a)
    ensures Count(log, p) <= Count(log, q) + Count(log, r)
    decreases |log|
  {
    if log != [] { CountCovers(log[..|log| - 1], p, q, r); }
  }

  /** Three windows of a key cannot all reach into one interval of a window's length. */
  lemma AtMostTwoWindows(key: string, from: int, a: Admission, b: Admission, c: Admission)
    requires InInterval(key, from)(a) && InInterval(key, from)(b) && InInterval(key, from)(c)
    requires a.at < a.started + WINDOW && b.at < b.started + WINDOW && c.at < c.started + WINDOW
    requires Apart(a, b) && Apart(b, a) && Apart(b, c) && Apart(c, b) && Apart(a, c) && Apart(c, a)
    ensures a.started == b.started || c.started == a.started || c.started == b.started
  {
  }

  /** While no call returns to a window that is over, any interval of one minute admits at most two windows' reports. */
  lemma AnyMinuteIsBounded(calls: seq<(string, int)>, key: string, from: int)
    requires NeverReturns(Run(calls).times, WINDOW)
    ensures Count(Run(calls).admitted, InInterval(key, from)) <= 120
  {
    RunKeepsInv(calls);
    var s := Run(calls);
    var p := InInterval(key, from);
    if a :| a in s.admitted && p(a) {
      var q := InWindow(key, a.started);
      if b :| b in s.admitted && p(b) && b.started != a.started {
        forall c | c in s.admitted && p(c) ensures q(c) || InWindow(key, b.started)(c) {
          assert Behind(s, a) && Behind(s, b) && Behind(s, c);
          AtMostTwoWindows(key, from, a, b, c);
        }
        CountCovers(s.admitted, p, q, InWindow(key, b.started));
      } else {
        CountCovers(s.admitted, p, q, q);
      }
    } else {
      NobodyCounted(s.admitted, p);
    }
  }

  // ---- Times that return ----

  /** `m` calls of a key at one time. */
  function Burst(key: string, at: int, m: nat): seq<(string, int)> { seq(m, _ => (key, at)) }

  /** A window's worth of calls at zero; then, again and again, a call in a later window and the rest at zero. */
  function ReturningCalls(key: string, rounds: nat): seq<(string, int)> {
    if rounds == 0 then Burst(key, 0, MAX_REPORTS)
    else ReturningCalls(key, rounds - 1) + [(key, rounds * WINDOW)] + Burst(key, 0, MAX_REPORTS - 1)
  }

  lemma RunSnoc(calls: seq<(string, int)>, key: string, now: int)
    ensures Run(calls + [(key, now)]) == Step(Run(calls), key, now)
  {
    assert (calls + [(key, now)])[..|calls|] == calls;
  }

  function Bursted(s: State, key: string, m: nat): State {
    if m == 0 then s else Step(Bursted(s, key, m - 1), key, 0)
  }

  lemma BurstGrows(calls: seq<(string, int)>, key: string, m: nat)
    ensures calls + Burst(key, 0, 0) == calls
    ensures calls + Burst(key, 0, m + 1) == calls + Burst(key, 0, m) + [(key, 0)]
  {
  }

  lemma {:induction false} RunOfBurst(calls: seq<(string, int)>, key: string, m: nat)
    ensures Run(calls + Burst(key, 0, m)) == Bursted(Run(calls), key, m)
  {
    if m == 0 {
      BurstGrows(calls, key, 0);
    } else {
      BurstGrows(calls, key, m - 1);
      RunOfBurst(calls, key, m - 1);
      RunSnoc(calls + Burst(key, 0, m - 1), key, 0);
    }
  }

  /** One more call of the only key, into a window that is not full. */
  lemma CallIsAdmitted(s: State, key: string, now: int, w: Window)
    requires s.rates.Keys <= {key} && WindowOf(s.rates, key, now) == w && w.count < MAX_REPORTS
    ensures Step(s, key, now).rates == map[key := Window(w.started, w.count + 1)]
    ensures Step(s, key, now).admitted == s.admitted + [Admission(key, now, w.started)]
  {
    SubsetSize(s.rates.Keys, {key});
    assert |s.rates.Keys| == |s.rates| <= 1;
  }

  lemma CountSnoc(log: seq<Admission>, a: Admission, p: Admission -> bool)
    ensures Count(log + [a], p) == Count(log, p) + if p(a) then 1 else 0
  {
    assert (log + [a])[..|log|] == log;
  }

  /** The key's window is `w`, with none yet if its count is zero, and `n` reports at zero have been admitted. */
  ghost predicate WindowIs(s: State, key: string, w: Window, n: nat) {
    && s.rates == (if w.count == 0 then map[] else map[key := w])
    && Count(s.admitted, InInterval(key, 0)) == n && 0 <= w.started && (w.count == 0 ==> w.started == 0)
  }

  ghost predicate Stands(s: State, key: string, started: int, count: nat, n: nat) {
    exists w: Window :: w == Window(started, count) && WindowIs(s, key, w, n)
  }

  lemma OneMoreInWindow(s: State, key: string, w: Window, n: nat)
    requires WindowIs(s, key, w, n) && w.count < MAX_REPORTS
    ensures WindowIs(Step(s, key, 0), key, Window(w.started, w.count + 1), n + 1)
  {
    assert |s.rates| <= 1;
    CallIsAdmitted(s, key, 0, w);
    CountSnoc(s.admitted, Admission(key, 0, w.started), InInterval(key, 0));
  }

  lemma OneMoreAtZero(s: State, key: string, started: int, count: nat, n: nat)
    requires Stands(s, key, started, count, n) && count < MAX_REPORTS
    ensures Stands(Step(s, key, 0), key, started, count + 1, n + 1)
  {
    OneMoreInWindow(s, key, Window(started, count), n);
  }

  lemma LaterWindow(s: State, key: string, started: int, count: nat, n: nat, now: int)
    requires Stands(s, key, started, count, n) && started + WINDOW <= now
    ensures Stands(Step(s, key, now), key, now, 1, n)
  {
    NextWindow(s, key, Window(started, count), n, now);
  }

  lemma NextWindow(s: State, key: string, w: Window, n: nat, now: int)
    requires WindowIs(s, key, w, n) && w.started + WINDOW <= now
    ensures WindowIs(Step(s, key, now), key, Window(now, 1), n)
  {
    assert |s.rates| <= 1;
    CallIsAdmitted(s, key, now, Window(now, 0));
    CountSnoc(s.admitted, Admission(key, now, now), InInterval(key, 0));
  }

  lemma {:induction false} BurstIsAdmitted(s: State, key: string, m: nat, started: int, count: nat, n: nat)
    requires Stands(s, key, started, count, n) && count + m <= MAX_REPORTS
    ensures Stands(Bursted(s, key, m), key, started, count + m, n + m)
  {
    if m > 0 {
      BurstIsAdmitted(s, key, m - 1, started, count, n);
      OneMoreAtZero(Bursted(s, key, m - 1), key, started, count + m - 1, n + m - 1);
    }
  }

  function AdmittedBy(rounds: nat): nat { if rounds == 0 then MAX_REPORTS else AdmittedBy(rounds - 1) + MAX_REPORTS - 1 }

  lemma {:induction false} AdmittedByIs(rounds: nat)
    ensures AdmittedBy(rounds) == MAX_REPORTS + rounds * (MAX_REPORTS - 1)
  {
    if rounds > 0 { AdmittedByIs(rounds - 1); }
  }

  lemma {:induction false} RoundsAdmit(key: string, rounds: nat)
    ensures Stands(Run(ReturningCalls(key, rounds)), key, rounds * WINDOW, MAX_REPORTS, AdmittedBy(rounds))
  {
    if rounds == 0 {
      FirstRound(key);
    } else {
      var started := (rounds - 1) * WINDOW;
      assert rounds * WINDOW == started + WINDOW;
      RoundsAdmit(key, rounds - 1);
      NextRound(ReturningCalls(key, rounds - 1), key, started, AdmittedBy(rounds - 1));
      RoundIs(key, rounds, started);
    }
  }

  lemma RoundIs(key: string, rounds: nat, started: int)
    requires rounds > 0 && started == (rounds - 1) * WINDOW
    ensures ReturningCalls(key, rounds)
      == ReturningCalls(key, rounds - 1) + [(key, started + WINDOW)] + Burst(key, 0, MAX_REPORTS - 1)
  {
  }

  lemma FirstRound(key: string)
    ensures Stands(Run(Burst(key, 0, MAX_REPORTS)), key, 0, MAX_REPORTS, MAX_REPORTS)
  {
    assert [] + Burst(key, 0, MAX_REPORTS) == Burst(key, 0, MAX_REPORTS);
    RunOfBurst([], key, MAX_REPORTS);
    assert WindowIs(Run([]), key, Window(0, 0), 0);
    BurstIsAdmitted(Run([]), key, MAX_REPORTS, 0, 0, 0);
  }

  lemma NextRound(before: seq<(string, int)>, key: string, started: int, n: nat)
    requires Stands(Run(before), key, started, MAX_REPORTS, n)
    ensures Stands(Run(before + [(key, started + WINDOW)] + Burst(key, 0, MAX_REPORTS - 1)), key, started + WINDOW, MAX_REPORTS,
                   n + MAX_REPORTS - 1)
  {
    var now := started + WINDOW;
    LaterWindow(Run(before), key, started, MAX_REPORTS, n, now);
    RunSnoc(before, key, now);
    RunOfBurst(before + [(key, now)], key, MAX_REPORTS - 1);
    BurstIsAdmitted(Step(Run(before), key, now), key, MAX_REPORTS - 1, now, 1, n);
  }

  /** With times that return, one minute admits ever more: the first window's reports and nearly as many each round. */
  lemma ReturningTimesAdmitMore(key: string, rounds: nat)
    ensures Count(Run(ReturningCalls(key, rounds)).admitted, InInterval(key, 0)) == MAX_REPORTS + rounds * (MAX_REPORTS - 1)
  {
    RoundsAdmit(key, rounds);
    AdmittedByIs(rounds);
  }
}
