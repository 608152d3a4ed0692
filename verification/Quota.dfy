/** Daily quotas for model calls, global and by task, reserved together and rolled back together (state.go). */
module Quota {
  import opened Common
  import Ingress

  /** Dates are days; an absent date is one that no call has. */
  datatype State = State(date: Option<int>, calls: nat, taskDates: map<string, int>, taskCalls: map<string, nat>)

  /** A reservation for a task, or for none; the limits are those of the call, and saving may fail. */
  datatype Take = Take(task: Option<string>, date: int, globalLimit: int, taskLimit: int, saved: bool)

  const EMPTY := State(None, 0, map[], map[])

  /** The count that a day's calls have reached: all of them, or those of one task. */
  function Used(s: State, who: Option<string>, date: int): nat {
    match who
    case None => if s.date == Some(date) then s.calls else 0
    case Some(t) => if t in s.taskDates && s.taskDates[t] == date && t in s.taskCalls then s.taskCalls[t] else 0
  }

  function Limit(t: Take, who: Option<string>): int { if who.None? then t.globalLimit else t.taskLimit }

  /** The call counts for `who`. */
  predicate Concerns(t: Take, who: Option<string>) { who.None? || t.task == who }

  predicate Fits(s: State, t: Take, who: Option<string>) { Limit(t, who) > 0 && Used(s, who, t.date) < Limit(t, who) }

  predicate Granted(s: State, t: Take) {
    && t.saved && Fits(s, t, None)
    && (t.task.Some? ==> Ingress.ValidLabel(t.task.value) && Fits(s, t, t.task))
  }

  function Step(s: State, t: Take): State {
    if !Granted(s, t) then s else
      var counted := s.(date := Some(t.date), calls := Used(s, None, t.date) + 1);
      match t.task
      case None => counted
      case Some(task) => counted.(taskDates := s.taskDates[task := t.date],
                                  taskCalls := s.taskCalls[task := Used(s, Some(task), t.date) + 1])
  }

  /** How many calls are on record for `day`: in all, and for a task. */
  function OnRecord(s: State, day: int): nat { if s.date == Some(day) then s.calls else 0 }

  function TaskOnRecord(s: State, task: string, day: int): nat {
    if task in s.taskDates && task in s.taskCalls && s.taskDates[task] == day then s.taskCalls[task] else 0
  }

  /** A call is granted exactly when it can be saved and both its limits leave room; it then counts once, for its day alone. */
  lemma TaskCallExactly(s: State, task: string, day: int, globalLimit: int, taskLimit: int, saved: bool)
    ensures var t := Take(Some(task), day, globalLimit, taskLimit, saved);
      var r := Step(s, t);
      && (Granted(s, t) <==> saved && OnRecord(s, day) < globalLimit && TaskOnRecord(s, task, day) < taskLimit
                             && 0 < globalLimit && 0 < taskLimit && Ingress.ValidLabel(task))
      && (!Granted(s, t) ==> r == s)
      && (Granted(s, t) ==>
            && r.date == Some(day) && r.calls == OnRecord(s, day) + 1
            && r.taskDates == s.taskDates[task := day] && r.taskCalls == s.taskCalls[task := TaskOnRecord(s, task, day) + 1])
  {
  }

  lemma ModelCallExactly(s: State, day: int, limit: int, saved: bool)
    ensures var t := Take(None, day, limit, 0, saved);
      var r := Step(s, t);
      && (Granted(s, t) <==> saved && 0 < limit && OnRecord(s, day) < limit)
      && r == (if Granted(s, t) then s.(date := Some(day), calls := OnRecord(s, day) + 1) else s)
  {
  }

  function Run(takes: seq<Take>): State
    decreases |takes|
  {
    if takes == [] then EMPTY else Step(Run(takes[..|takes| - 1]), takes[|takes| - 1])
  }

  /** The last call of a run was granted, and counts for `who`. */
  predicate LastCounts(takes: seq<Take>, who: Option<string>)
    requires takes != []
  {
    Granted(Run(takes[..|takes| - 1]), takes[|takes| - 1]) && Concerns(takes[|takes| - 1], who)
  }

  /** How many calls of a run were granted on a day. */
  function Grants(takes: seq<Take>, who: Option<string>, day: int): nat
    decreases |takes|
  {
    if takes == [] then 0 else
      Grants(takes[..|takes| - 1], who, day) + if LastCounts(takes, who) && takes[|takes| - 1].date == day then 1 else 0
  }

  /** After a granted call of `day` came one of another day. */
  predicate Interrupted(takes: seq<Take>, who: Option<string>, day: int)
    decreases |takes|
  {
    takes != [] &&
    (Interrupted(takes[..|takes| - 1], who, day) ||
     (LastCounts(takes, who) && takes[|takes| - 1].date != day && Grants(takes[..|takes| - 1], who, day) > 0))
  }

  /** After an interruption a further call of `day` was granted. */
  predicate Reopened(takes: seq<Take>, who: Option<string>, day: int)
    decreases |takes|
  {
    takes != [] &&
    (Reopened(takes[..|takes| - 1], who, day) ||
     (LastCounts(takes, who) && takes[|takes| - 1].date == day && Interrupted(takes[..|takes| - 1], who, day)))
  }

  /** Over any run, with days in any order, a counter is the true number of granted calls exactly when its day was not interrupted. */
  lemma {:induction false} CountersAreTrueExactly(takes: seq<Take>, who: Option<string>, day: int)
    ensures Used(Run(takes), who, day) <= Grants(takes, who, day)
    ensures Used(Run(takes), who, day) == Grants(takes, who, day) <==> !Interrupted(takes, who, day)
    decreases |takes|
  {
    if takes != [] { CountersAreTrueExactly(takes[..|takes| - 1], who, day); }
  }

  /** No day that was never reopened has more granted calls than the largest limit in use. */
  lemma {:induction false} LimitsHold(takes: seq<Take>, who: Option<string>, day: int, most: nat)
    requires !Reopened(takes, who, day)
    requires forall i :: 0 <= i < |takes| && Concerns(takes[i], who) ==> Limit(takes[i], who) <= most
    ensures Grants(takes, who, day) <= most
    decreases |takes|
  {
    if takes != [] {
      var n := |takes| - 1;
      LimitsHold(takes[..n], who, day, most);
      CountersAreTrueExactly(takes[..n], who, day);
    }
  }

  /** A call for `task` on `day` that is held to `most` in the count of `who`, and to `wide` in the other. */
  function CallFor(who: Option<string>, task: string, day: int, most: nat, wide: nat): Take {
    if who.None? then Take(Some(task), day, most, wide, true) else Take(Some(task), day, wide, most, true)
  }

  function Other(who: Option<string>, task: string): Option<string> { if who.None? then Some(task) else None }

  /**
   * And any interruption lets the day exceed any limit, in all or for a task: its counter starts again, and further calls
   * for one task are granted as long as the other limit is wide enough.
   */
  lemma {:induction false} InterruptedDayCanExceed(
      takes: seq<Take>, who: Option<string>, task: string, day: int, most: nat, wide: nat) returns (more: seq<Take>)
    requires Interrupted(takes, who, day) && most > 0 && Ingress.ValidLabel(task) && (who.Some? ==> who.value == task)
    requires wide > 0 && Used(Run(takes), Other(who, task), day) + most <= wide + Used(Run(takes), who, day)
    ensures forall i :: 0 <= i < |more| ==> more[i] == CallFor(who, task, day, most, wide)
    ensures Grants(takes + more, who, day) > most
    decreases most - Used(Run(takes), who, day)
  {
    CountersAreTrueExactly(takes, who, day);
    if Used(Run(takes), who, day) >= most {
      more := [];
      assert takes + more == takes;
    } else {
      var t := CallFor(who, task, day, most, wide);
      OneMoreCall(takes, who, task, day, most, wide);
      var rest := InterruptedDayCanExceed(takes + [t], who, task, day, most, wide);
      more := [t] + rest;
      assert takes + [t] + rest == takes + more;
    }
  }

  lemma OneMoreCall(takes: seq<Take>, who: Option<string>, task: string, day: int, most: nat, wide: nat)
    requires Ingress.ValidLabel(task) && (who.Some? ==> who.value == task)
    requires Used(Run(takes), who, day) < most && Used(Run(takes), Other(who, task), day) < wide
    ensures var s, now := Run(takes), takes + [CallFor(who, task, day, most, wide)];
      && Used(Run(now), who, day) == Used(s, who, day) + 1
      && Used(Run(now), Other(who, task), day) == Used(s, Other(who, task), day) + 1
      && (Interrupted(takes, who, day) ==> Interrupted(now, who, day))
  {
    var now := takes + [CallFor(who, task, day, most, wide)];
    assert now[..|takes|] == takes;
  }

  predicate Ordered(takes: seq<Take>) { forall i, j :: 0 <= i < j < |takes| ==> takes[i].date <= takes[j].date }

  lemma {:induction false} GrantedOnDay(takes: seq<Take>, who: Option<string>, day: int) returns (i: nat)
    requires Grants(takes, who, day) > 0
    ensures i < |takes| && takes[i].date == day
    decreases |takes|
  {
    var n := |takes| - 1;
    if LastCounts(takes, who) && takes[n].date == day { i := n; } else { i := GrantedOnDay(takes[..n], who, day); }
  }

  /** While days do not go back, an interrupted day is over. */
  lemma {:induction false} InterruptedIsOver(takes: seq<Take>, who: Option<string>, day: int) returns (i: nat)
    requires Ordered(takes) && Interrupted(takes, who, day)
    ensures i < |takes| && takes[i].date > day
    decreases |takes|
  {
    var n := |takes| - 1;
    if Interrupted(takes[..n], who, day) {
      i := InterruptedIsOver(takes[..n], who, day);
    } else {
      var j := GrantedOnDay(takes[..n], who, day);
      assert takes[j].date <= takes[n].date;
      i := n;
    }
  }

  /** So days that do not go back are never reopened. */
  lemma {:induction false} OrderedNeverReopens(takes: seq<Take>, who: Option<string>, day: int)
    requires Ordered(takes)
    ensures !Reopened(takes, who, day)
    decreases |takes|
  {
    if takes != [] {
      var n := |takes| - 1;
      OrderedNeverReopens(takes[..n], who, day);
      if takes[n].date == day && Interrupted(takes[..n], who, day) {
        var _ := InterruptedIsOver(takes[..n], who, day);
      }
    }
  }

  // ---- Tasks together against the global count ----

  /** What the tasks' counters hold for a day. */
  ghost function TaskUse(s: State, day: int): map<string, nat> {
    map t | t in s.taskDates && t in s.taskCalls && s.taskDates[t] == day :: s.taskCalls[t]
  }

  predicate Paired(s: State) { s.taskDates.Keys == s.taskCalls.Keys }

  /** Calls that the tasks' counters still held for the current day when its global count last started. */
  ghost function Stale(takes: seq<Take>): nat
    decreases |takes|
  {
    if takes == [] then 0 else
      var s, t := Run(takes[..|takes| - 1]), takes[|takes| - 1];
      if Granted(s, t) && s.date != Some(t.date) then Sum(TaskUse(s, t.date)) else Stale(takes[..|takes| - 1])
  }

  /** Granted calls of no task since then. */
  ghost function Untasked(takes: seq<Take>): nat
    decreases |takes|
  {
    if takes == [] then 0 else
      var s, t := Run(takes[..|takes| - 1]), takes[|takes| - 1];
      if !Granted(s, t) then Untasked(takes[..|takes| - 1]) else
        (if s.date == Some(t.date) then Untasked(takes[..|takes| - 1]) else 0) + if t.task.None? then 1 else 0
  }

  lemma GrantAddsToTasks(s: State, t: Take)
    requires Paired(s) && Granted(s, t)
    ensures Paired(Step(s, t))
    ensures Sum(TaskUse(Step(s, t), t.date)) == Sum(TaskUse(s, t.date)) + if t.task.Some? then 1 else 0
  {
    var use, now := TaskUse(s, t.date), TaskUse(Step(s, t), t.date);
    if t.task.Some? {
      var task, n := t.task.value, Used(s, t.task, t.date);
      assert now == use[task := n + 1];
      SumUpdate(use, task, n + 1);
      assert task in use ==> use[task] == n;
      if task !in use { assert use - {task} == use; }
    } else {
      assert now == use;
    }
  }

  /** The tasks' calls of the current day are the stale ones and all granted since but those of no task. */
  lemma {:induction false} TaskCallsAddUp(takes: seq<Take>)
    ensures var s := Run(takes);
      Paired(s) && (s.date.Some? ==> Sum(TaskUse(s, s.date.value)) + Untasked(takes) == Stale(takes) + s.calls)
    decreases |takes|
  {
    if takes != [] {
      var n := |takes| - 1;
      TaskCallsAddUp(takes[..n]);
      if Granted(Run(takes[..n]), takes[n]) { GrantAddsToTasks(Run(takes[..n]), takes[n]); }
    }
  }

  /** They exceed the global count exactly when more are stale than were granted to no task since. */
  lemma TasksFitTheTotalExactly(takes: seq<Take>)
    requires Run(takes).date.Some?
    ensures var s := Run(takes); Sum(TaskUse(s, s.date.value)) <= s.calls <==> Stale(takes) <= Untasked(takes)
  {
    TaskCallsAddUp(takes);
  }

  lemma {:induction false} NoTaskOnDay(takes: seq<Take>, day: int)
    requires Grants(takes, None, day) == 0
    ensures TaskUse(Run(takes), day) == map[]
    decreases |takes|
  {
    if takes != [] { NoTaskOnDay(takes[..|takes| - 1], day); }
  }

  /** Nothing is stale while the current day was not reopened, as it never is when days do not go back. */
  lemma {:induction false} NothingStale(takes: seq<Take>)
    requires Run(takes).date.Some? && !Reopened(takes, None, Run(takes).date.value)
    ensures Stale(takes) == 0
    decreases |takes|
  {
    var n := |takes| - 1;
    var s, t := Run(takes[..n]), takes[n];
    if Granted(s, t) && s.date != Some(t.date) {
      CountersAreTrueExactly(takes[..n], None, t.date);
      NoTaskOnDay(takes[..n], t.date);
    } else {
      NothingStale(takes[..n]);
    }
  }

  /** So the calls counted for tasks on a day that was not reopened never exceed the global count. */
  lemma TasksFitTheTotal(takes: seq<Take>)
    requires Run(takes).date.Some? && !Reopened(takes, None, Run(takes).date.value)
    ensures var s := Run(takes); Sum(TaskUse(s, s.date.value)) <= s.calls
  {
    NothingStale(takes);
    TasksFitTheTotalExactly(takes);
  }

  /** One more call. */
  lemma RunSnoc(takes: seq<Take>, t: Take, day: int)
    ensures Run(takes + [t]) == Step(Run(takes), t)
    ensures Grants(takes + [t], None, day) == Grants(takes, None, day) + if Granted(Run(takes), t) && t.date == day then 1 else 0
  {
    assert (takes + [t])[..|takes|] == takes;
  }

  /**
   * Calls of three tasks around midnight, of which the middle one is counted with the day that is over: the tasks' counts
   * exceed the global one, and the day exceeds its limit.
   */
  lemma BackwardDayOvercounts()
    ensures var takes := [Take(Some("a"), 2, 1, 1, true), Take(Some("b"), 1, 1, 1, true), Take(Some("c"), 2, 1, 1, true)];
      && Sum(TaskUse(Run(takes), 2)) > Run(takes).calls && Run(takes).date == Some(2)
      && Grants(takes, None, 2) == 2
  {
    var x, y, z := Take(Some("a"), 2, 1, 1, true), Take(Some("b"), 1, 1, 1, true), Take(Some("c"), 2, 1, 1, true);
    assert Ingress.ValidLabel("a") && Ingress.ValidLabel("b") && Ingress.ValidLabel("c");
    assert "a"[0] != "b"[0] && "a"[0] != "c"[0] && "b"[0] != "c"[0];
    BackwardStart(x, y);
    BackwardEnd([x, y], z);
    assert [x, y] + [z] == [x, y, z];
  }

  lemma BackwardStart(x: Take, y: Take)
    requires Ingress.ValidLabel("a") && Ingress.ValidLabel("b") && "a" != "b"
    requires x == Take(Some("a"), 2, 1, 1, true) && y == Take(Some("b"), 1, 1, 1, true)
    ensures Run([x, y]) == State(Some(1), 1, map["a" := 2]["b" := 1], map["a" := 1]["b" := 1]) && Grants([x, y], None, 2) == 1
  {
    RunSnoc([], x, 2);
    TaskCallExactly(EMPTY, "a", 2, 1, 1, true);
    assert [] + [x] == [x] && [x] + [y] == [x, y];
    RunSnoc([x], y, 2);
    TaskCallExactly(Run([x]), "b", 1, 1, 1, true);
  }

  lemma BackwardEnd(takes: seq<Take>, z: Take)
    requires z == Take(Some("c"), 2, 1, 1, true) && Ingress.ValidLabel("c") && "a" != "b" && "a" != "c" && "b" != "c"
    requires Run(takes) == State(Some(1), 1, map["a" := 2]["b" := 1], map["a" := 1]["b" := 1]) && Grants(takes, None, 2) == 1
    ensures Sum(TaskUse(Run(takes + [z]), 2)) > Run(takes + [z]).calls && Run(takes + [z]).date == Some(2)
    ensures Grants(takes + [z], None, 2) == 2
  {
    RunSnoc(takes, z, 2);
    TaskCallExactly(Run(takes), "c", 2, 1, 1, true);
    TaskCallsAddUp(takes);
    GrantAddsToTasks(Run(takes), z);
    TwoTasks(Run(takes), "a", 2, "b", 1);
  }

  /** Of two tasks with counts of different days only one counts on its day. */
  lemma TwoTasks(s: State, a: string, day: int, b: string, other: int)
    requires a != b && day != other && s.taskDates == map[a := day][b := other] && s.taskCalls.Keys == {a, b}
    ensures Sum(TaskUse(s, day)) == s.taskCalls[a]
  {
    var none: map<string, nat> := map[];
    assert TaskUse(s, day) == none[a := s.taskCalls[a]];
    SumUpdate(none, a, s.taskCalls[a]);
    assert none - {a} == none;
  }

  // ---- In place, with rollback ----

  function Entry<V>(m: map<string, V>, k: string): Option<V> { if k in m then Some(m[k]) else None }

  function Restored<V>(m: map<string, V>, k: string, previous: Option<V>): map<string, V> {
    if previous.Some? then m[k := previous.value] else m - {k}
  }

  /** Putting back a remembered entry, or its absence, undoes a write. */
  lemma RestoredIsOld<V>(m: map<string, V>, k: string, v: V, previous: Option<V>)
    requires previous == Entry(m, k)
    ensures Restored(m[k := v], k, previous) == m
  {
  }

  class StateStore {
    var date: Option<int>
    var calls: nat
    var taskDates: map<string, int>
    var taskCalls: map<string, nat>

    constructor ()
      ensures View() == EMPTY
    {
      date, calls, taskDates, taskCalls := None, 0, map[], map[];
    }

    ghost function View(): State reads this { State(date, calls, taskDates, taskCalls) }

    method TakeModelCall(now: int, limit: int, saved: bool) returns (used: nat, allowed: bool)
      modifies this
      ensures View() == Step(old(View()), Take(None, now, limit, 0, saved))
      ensures allowed <==> Granted(old(View()), Take(None, now, limit, 0, saved))
      ensures allowed ==> used == calls <= limit
      ensures !allowed ==> used == if limit <= 0 then 0 else if saved then OnRecord(old(View()), now) else old(calls)
    {
      if limit <= 0 { return 0, false; }
      var previousDate, previousCalls := date, calls;
      if date != Some(now) { date, calls := Some(now), 0; }
      if calls >= limit { return calls, false; }
      calls := calls + 1;
      if !saved {
        date, calls := previousDate, previousCalls;
        return previousCalls, false;
      }
      return calls, true;
    }

    method TakeTaskModelCall(now: int, globalLimit: int, task: string, taskLimit: int, saved: bool)
      returns (globalUsed: nat, taskUsed: nat, allowed: bool)
      modifies this
      ensures View() == Step(old(View()), Take(Some(task), now, globalLimit, taskLimit, saved))
      ensures allowed <==> Granted(old(View()), Take(Some(task), now, globalLimit, taskLimit, saved))
      ensures globalLimit > 0 && taskLimit > 0 && Ingress.ValidLabel(task) ==>
        globalUsed == OnRecord(View(), now) && taskUsed == TaskOnRecord(View(), task, now)
      ensures !(globalLimit > 0 && taskLimit > 0 && Ingress.ValidLabel(task)) ==> globalUsed == taskUsed == 0
    {
      globalUsed, taskUsed := 0, 0;
      if globalLimit <= 0 || taskLimit <= 0 || !Ingress.ValidLabel(task) { return 0, 0, false; }
      if date == Some(now) { globalUsed := calls; }
      if task in taskDates && taskDates[task] == now && task in taskCalls { taskUsed := taskCalls[task]; }
      if globalUsed >= globalLimit || taskUsed >= taskLimit { return globalUsed, taskUsed, false; }

      var previousDate, previousCalls := date, calls;
      var previousTaskDate, previousTaskCalls := Entry(taskDates, task), Entry(taskCalls, task);
      date, calls := Some(now), globalUsed + 1;
      taskDates, taskCalls := taskDates[task := now], taskCalls[task := taskUsed + 1];
      if !saved {
        date, calls := previousDate, previousCalls;
        taskDates := Restored(taskDates, task, previousTaskDate);
        taskCalls := Restored(taskCalls, task, previousTaskCalls);
        RestoredIsOld(old(taskDates), task, now, previousTaskDate);
        RestoredIsOld(old(taskCalls), task, taskUsed + 1, previousTaskCalls);
        return globalUsed, taskUsed, false;
      }
      return globalUsed + 1, taskUsed + 1, true;
    }
  }
}
