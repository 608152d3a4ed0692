/** The agent's planner and reply loops, with the model and the tools as an arbitrary environment (agent.go). */
module Agent {
  import opened Common
  import opened Transcript
  import opened WireFormat

  const MAX_STEPS := 4

  datatype Task = Planner | Replyer

  datatype ToolRequest = ToolRequest(name: string, arguments: Arguments)

  datatype Decision = CallTools(requests: seq<ToolRequest>) | Respond(intent: string) | Wait(intent: string) | Stop

  /** A model's answer: tool calls, or text that may decode to a decision; whether it is the reply is up to the policy. */
  datatype Response = Failure(repairable: bool) | Response(calls: seq<Call>, decision: Option<Decision>, reply: Option<string>)

  datatype ToolOutcome = ToolOutcome(projection: string, userText: string, direct: bool, interrupted: bool)

  /** What a run does and meets, in order. A repair request is its stem with one more system message. */
  datatype Act =
    | Ended
    | Invalid(task: Task)
    | Reserved(task: Task, granted: bool)
    | Completed(task: Task, step: nat, stem: seq<Message>, repair: bool, response: Response)
    | NoID
    | HookFailed
    | Ran(call: Call, outcome: ToolOutcome)

  /** `Unusable` is an answer that says nothing and may be repaired. */
  datatype Plan = NoPlan | Unusable | Planned(decision: Decision, calls: seq<Call>)

  datatype Outcome = Failed | Replied(texts: seq<string>) | Stopped

  /**
   * What a run meets, by the number of acts before it: whether its context is over, a reservation is granted, what the model
   * answers, the ids made for decoded calls, whether the hooks around a tool fail, and what the tool returns.
   */
  datatype World = World(ended: nat -> bool, granted: nat -> bool, answer: nat -> Response, id: (nat, nat) -> Option<string>,
                         before: nat -> bool, tool: nat -> ToolOutcome, after: nat -> bool)

  /** The calls of the transcript are those of the decision, one for one. */
  predicate SameCalls(calls: seq<Call>, requests: seq<ToolRequest>) {
    |calls| == |requests| &&
    forall i :: 0 <= i < |calls| ==> calls[i].name == requests[i].name && calls[i].arguments == requests[i].arguments
  }

  const REPAIR_PROMPT: Message := System("[repair:v1]")

  function RequestOf(stem: seq<Message>, repair: bool): seq<Message> { stem + if repair then [REPAIR_PROMPT] else [] }

  function MessagesOf(a: Act): seq<Message>
    requires a.Completed?
  {
    RequestOf(a.stem, a.repair)
  }

  // ---- The course of a run in its world ----

  /** One completion: nothing is asked once the context is over, of an invalid request, or without its reservation. */
  function Ask(w: World, t: nat, task: Task, step: nat, stem: seq<Message>, repair: bool, reserving: bool): (seq<Act>, Response) {
    if w.ended(t) then ([Ended], Failure(false))
    else if !ValidRequest(RequestOf(stem, repair)) then ([Invalid(task)], Failure(false))
    else if !reserving then ([Completed(task, step, stem, repair, w.answer(t))], w.answer(t))
    else if !w.granted(t) then ([Reserved(task, false)], Failure(false))
    else ([Reserved(task, true), Completed(task, step, stem, repair, w.answer(t + 1))], w.answer(t + 1))
  }

  /** The calls for decoded requests, each with a new id, if all can be made. */
  function CallsFor(w: World, t: nat, requests: seq<ToolRequest>): Option<seq<Call>>
    decreases |requests|
  {
    if requests == [] then Some([]) else
      var n := |requests| - 1;
      var init, id := CallsFor(w, t, requests[..n]), w.id(t, n);
      if init.None? || id.None? then None else Some(init.value + [Call(id.value, requests[n].name, requests[n].arguments)])
  }

  function RequestsOf(calls: seq<Call>): seq<ToolRequest> {
    seq(|calls|, i requires 0 <= i < |calls| => ToolRequest(calls[i].name, calls[i].arguments))
  }

  /** Native tool calls keep their ids; decoded ones get new ids. */
  function Decide(w: World, t: nat, response: Response): (seq<Act>, Plan)
    requires response.Response?
  {
    if response.calls != [] then ([], Planned(CallTools(RequestsOf(response.calls)), response.calls))
    else if response.decision.None? then ([], Unusable)
    else if !response.decision.value.CallTools? then ([], Planned(response.decision.value, []))
    else
      var calls := CallsFor(w, t, response.decision.value.requests);
      if calls.None? then ([NoID], NoPlan) else ([], Planned(response.decision.value, calls.value))
  }

  /** One attempt at a plan. */
  function PlanOnce(w: World, t: nat, step: nat, working: seq<Message>, repair: bool, reserving: bool): (seq<Act>, Plan) {
    var (acts, response) := Ask(w, t, Planner, step, working, repair, reserving);
    if response.Failure? then (acts, if response.repairable then Unusable else NoPlan) else
      var (more, plan) := Decide(w, t + |acts|, response);
      (acts + more, plan)
  }

  /** At most two attempts, the second a repair. */
  function PlanOf(w: World, t: nat, step: nat, working: seq<Message>, reserving: bool): (seq<Act>, Plan) {
    var (acts, plan) := PlanOnce(w, t, step, working, false, reserving);
    if !plan.Unusable? then (acts, plan) else
      var (again, second) := PlanOnce(w, t + |acts|, step, working, true, reserving);
      (acts + again, if second.Unusable? then NoPlan else second)
  }

  /** What came of asking for the reply; `Unfit` may be repaired. */
  datatype Answer = NoAnswer | Unfit | Answer(text: string)

  function ReplyOnce(w: World, t: nat, step: nat, messages: seq<Message>, repair: bool, reserving: bool): (seq<Act>, Answer) {
    var (acts, response) := Ask(w, t, Replyer, step, messages, repair, reserving);
    (acts, if response.Failure? then if response.repairable then Unfit else NoAnswer
           else if response.calls == [] && response.reply.Some? then Answer(response.reply.value) else Unfit)
  }

  /** One attempt, and a repair if a reply is expected. */
  function ReplyOf(w: World, t: nat, step: nat, messages: seq<Message>, expecting: bool, reserving: bool): (seq<Act>, Option<string>) {
    var (acts, answer) := ReplyOnce(w, t, step, messages, false, reserving);
    if answer.Answer? then (acts, Some(answer.text))
    else if !expecting || answer.NoAnswer? then (acts, None)
    else
      var (again, second) := ReplyOnce(w, t + |acts|, step, messages, true, reserving);
      (acts + again, if second.Answer? then Some(second.text) else None)
  }

  /** After a failure: the tool results gathered so far, unless there are none or the context is over. */
  function FallBack(w: World, t: nat, texts: seq<string>): Outcome {
    if w.ended(t) || texts == [] then Failed else Replied(texts)
  }

  datatype Tooled = Tooled(acts: seq<Act>, grown: seq<Message>, texts: seq<string>, direct: bool, end: Option<Outcome>)

  function Said(texts: seq<string>, o: ToolOutcome): seq<string> { if o.userText != "" then texts + [o.userText] else texts }

  /** The calls one after the other; each adds its result to the transcript. */
  function ToolsFrom(w: World, t: nat, calls: seq<Call>, working: seq<Message>, texts: seq<string>, direct: bool): Tooled
    decreases |calls|
  {
    if calls == [] then Tooled([], working, texts, direct, None)
    else if w.before(t) then Tooled([HookFailed], working, texts, direct, Some(Failed))
    else
      var o, ran := w.tool(t), Ran(calls[0], w.tool(t));
      var said, now := Said(texts, o), direct || (o.userText != "" && o.direct);
      if w.after(t) then Tooled([ran, HookFailed], working, said, now, Some(FallBack(w, t + 2, said)))
      else if o.interrupted then Tooled([ran], working, said, now, Some(Failed))
      else
        var rest := ToolsFrom(w, t + 1, calls[1..], working + [Tool(calls[0].id, o.projection)], said, now);
        rest.(acts := [ran] + rest.acts)
  }

  /** How a run ends: what it did, what it says, the tool results it had gathered, and the replyer's answer. */
  datatype Ending = Ending(acts: seq<Act>, outcome: Outcome, texts: seq<string>, answer: Option<string>)

  /** What a run is given besides its world. */
  datatype Input = Input(replyMessages: seq<Message>, expecting: bool, reserving: bool)

  /** What one planner step leads to: the end of the run, or the next step with a longer transcript. */
  datatype Turning = Over(end: Ending) | On(acts: seq<Act>, working: seq<Message>, texts: seq<string>)

  /** What follows the plan of a step, which was made by time `t`. */
  function Continue(w: World, t: nat, step: nat, working: seq<Message>, texts: seq<string>, input: Input, plan: Plan): Turning {
    if !plan.Planned? then Over(Ending([], FallBack(w, t, texts), texts, None)) else
      match plan.decision
      case CallTools(_) =>
        var x := ToolsFrom(w, t, plan.calls, working + [Assistant("", plan.calls)], texts, false);
        if x.end.Some? then Over(Ending(x.acts, x.end.value, x.texts, None))
        else if x.direct then Over(Ending(x.acts, Replied(x.texts), x.texts, None))
        else On(x.acts, x.grown, x.texts)
      case Stop => Over(Ending([], if texts != [] then Replied(texts) else Stopped, texts, None))
      case _ =>
        var (acts, answer) := ReplyOf(w, t, step, input.replyMessages, input.expecting, input.reserving);
        Over(Ending(acts, if answer.Some? then Replied([answer.value]) else FallBack(w, t + |acts|, texts), texts, answer))
  }

  function ActsOf(x: Turning): seq<Act> { if x.Over? then x.end.acts else x.acts }

  function WithActs(acts: seq<Act>, x: Turning): Turning {
    if x.Over? then Over(x.end.(acts := acts)) else On(acts, x.working, x.texts)
  }

  function After(acts: seq<Act>, x: Turning): Turning { WithActs(acts + ActsOf(x), x) }

  function TakeStep(w: World, t: nat, step: nat, working: seq<Message>, texts: seq<string>, input: Input): Turning {
    var (acts, plan) := PlanOf(w, t, step, working, input.reserving);
    After(acts, Continue(w, t + |acts|, step, working, texts, input, plan))
  }

  /** A step by the time it starts at, its number, the transcript and the gathered texts. */
  type Stepper = (nat, nat, seq<Message>, seq<string>) -> Turning

  /** The run from planner step `step` on, whatever a step does. */
  function RunWith(f: Stepper, w: World, t: nat, step: nat, working: seq<Message>, texts: seq<string>): Ending
    decreases MAX_STEPS + 1 - step
  {
    if step > MAX_STEPS then Ending([], FallBack(w, t, texts), texts, None) else
      match f(t, step, working, texts)
      case Over(end) => end
      case On(acts, grown, said) => Following(acts, RunWith(f, w, t + |acts|, step + 1, grown, said))
  }

  function Following(log: seq<Act>, e: Ending): Ending { e.(acts := log + e.acts) }

  function StepperOf(w: World, input: Input): Stepper {
    (t: nat, step: nat, working: seq<Message>, texts: seq<string>) => TakeStep(w, t, step, working, texts, input)
  }

  /** `f` does what the steps of a run in this world do. */
  ghost predicate Steps(f: Stepper, w: World, input: Input) {
    forall t: nat, step: nat, working: seq<Message>, texts: seq<string> {:trigger TakeStep(w, t, step, working, texts, input)} ::
      f(t, step, working, texts) == TakeStep(w, t, step, working, texts, input)
  }

  /** A whole run. */
  function RunOf(w: World, base: seq<Message>, input: Input): Ending { RunWith(StepperOf(w, input), w, 0, 1, base, []) }

  // ---- What each part of a run does ----

  /** A model is asked exactly when the context is not over, the request is valid and its reservation, if any, is granted. */
  lemma AskExactly(w: World, t: nat, task: Task, step: nat, stem: seq<Message>, repair: bool, reserving: bool)
    ensures var (acts, r) := Ask(w, t, task, step, stem, repair, reserving);
      var asked := !w.ended(t) && ValidRequest(RequestOf(stem, repair)) && (reserving ==> w.granted(t));
      && (!asked ==> r == Failure(false) && |acts| == 1 && !acts[0].Completed?)
      && (asked && !reserving ==> r == w.answer(t) && acts == [Completed(task, step, stem, repair, r)])
      && (asked && reserving ==> r == w.answer(t + 1) && acts == [Reserved(task, true), Completed(task, step, stem, repair, r)])
  {
  }

  /** An answer that decides nothing and may be asked for again. */
  predicate Unclear(r: Response) { if r.Failure? then r.repairable else r.calls == [] && r.decision.None? }

  /** What decoded calls come to: calls with the new ids, or no plan when one could not be made. */
  predicate CallsReadAs(w: World, t: nat, requests: seq<ToolRequest>, more: seq<Act>, plan: Plan) {
    if forall i: nat :: i < |requests| ==> w.id(t, i).Some? then
      && more == [] && plan.Planned? && plan.decision == CallTools(requests) && SameCalls(plan.calls, requests)
      && forall i: nat :: i < |plan.calls| ==> w.id(t, i) == Some(plan.calls[i].id)
    else more == [NoID] && plan == NoPlan
  }

  /** What an answer that is not unclear comes to: its tool calls, or its decision with new ids for the calls in it. */
  predicate ReadAs(w: World, t: nat, r: Response, more: seq<Act>, plan: Plan) {
    && !Unclear(r)
    && (r.Failure? ==> more == [] && plan == NoPlan)
    && (r.Response? && r.calls != [] ==>
          more == [] && plan.Planned? && plan.decision.CallTools? && plan.calls == r.calls && SameCalls(r.calls, plan.decision.requests))
    && (r.Response? && r.calls == [] && !r.decision.value.CallTools? ==> more == [] && plan == Planned(r.decision.value, []))
    && (r.Response? && r.calls == [] && r.decision.value.CallTools? ==> CallsReadAs(w, t, r.decision.value.requests, more, plan))
  }

  lemma {:induction false} CallsForExactly(w: World, t: nat, requests: seq<ToolRequest>)
    ensures CallsFor(w, t, requests).Some? <==> forall i: nat :: i < |requests| ==> w.id(t, i).Some?
    ensures CallsFor(w, t, requests).Some? ==> var calls := CallsFor(w, t, requests).value;
      SameCalls(calls, requests) && forall i: nat :: i < |calls| ==> w.id(t, i) == Some(calls[i].id)
    decreases |requests|
  {
    if requests != [] { CallsForExactly(w, t, requests[..|requests| - 1]); }
  }

  lemma DecideReads(w: World, t: nat, r: Response)
    requires r.Response? && !Unclear(r)
    ensures var (more, plan) := Decide(w, t, r); ReadAs(w, t, r, more, plan) && !plan.Unusable?
  {
    if r.calls == [] && r.decision.value.CallTools? { CallsForExactly(w, t, r.decision.value.requests); }
  }

  /** One attempt asks once and reads what comes; an unclear answer leaves the plan open. */
  lemma AttemptExactly(w: World, t: nat, step: nat, working: seq<Message>, repair: bool, reserving: bool)
    ensures var (acts, plan) := PlanOnce(w, t, step, working, repair, reserving);
      var (asked, r) := Ask(w, t, Planner, step, working, repair, reserving);
      && asked <= acts && (plan.Unusable? <==> Unclear(r)) && (Unclear(r) ==> acts == asked)
      && (!Unclear(r) ==> ReadAs(w, t + |asked|, r, acts[|asked|..], plan))
  {
    var (asked, r) := Ask(w, t, Planner, step, working, repair, reserving);
    if r.Response? && !Unclear(r) { DecideReads(w, t + |asked|, r); }
  }

  /** A step asks once, and once more to repair an unclear answer; the first clear one is the plan, and there is none without. */
  lemma PlanExactly(w: World, t: nat, step: nat, working: seq<Message>, reserving: bool)
    ensures var (acts, plan) := PlanOf(w, t, step, working, reserving);
      var (first, open) := PlanOnce(w, t, step, working, false, reserving);
      var (second, plan2) := PlanOnce(w, t + |first|, step, working, true, reserving);
      var unclear := Unclear(Ask(w, t, Planner, step, working, false, reserving).1);
      var unclear2 := Unclear(Ask(w, t + |first|, Planner, step, working, true, reserving).1);
      && (!unclear ==> acts == first && plan == open)
      && (unclear ==> acts == first + second && plan == if unclear2 then NoPlan else plan2)
      && !plan.Unusable?
  {
    AttemptExactly(w, t, step, working, false, reserving);
    AttemptExactly(w, t + |PlanOnce(w, t, step, working, false, reserving).0|, step, working, true, reserving);
  }

  /** A usable answer is the reply; an expected reply is asked for again after a repairable failure or another answer. */
  lemma ReplyExactly(w: World, t: nat, step: nat, messages: seq<Message>, expecting: bool, reserving: bool)
    ensures var (acts, answer) := ReplyOf(w, t, step, messages, expecting, reserving);
      var (first, r) := Ask(w, t, Replyer, step, messages, false, reserving);
      var (second, r2) := Ask(w, t + |first|, Replyer, step, messages, true, reserving);
      var usable, usable2 := r.Response? && r.calls == [] && r.reply.Some?, r2.Response? && r2.calls == [] && r2.reply.Some?;
      && (usable ==> acts == first && answer == r.reply)
      && (!usable && (!expecting || r == Failure(false)) ==> acts == first && answer == None)
      && (!usable && expecting && r != Failure(false) ==> acts == first + second && answer == if usable2 then r2.reply else None)
  {
  }

  /** A call at this time is fine when no hook around it fails and it is not interrupted. */
  predicate Fine(w: World, u: nat) { !w.before(u) && !w.after(u) && !w.tool(u).interrupted }

  /** The first `k` calls, made from time `t` on, are fine. */
  predicate FineUpTo(w: World, t: nat, k: nat) { forall u: nat :: t <= u < t + k ==> Fine(w, u) }

  /** What the first `k` calls say to the user. */
  function SaidBy(w: World, t: nat, k: nat, texts: seq<string>): seq<string> {
    if k == 0 then texts
    else
      var so, text := SaidBy(w, t, k - 1, texts), w.tool(t + k - 1).userText;
      if text == "" then so else so + [text]
  }

  function RunsOf(w: World, t: nat, calls: seq<Call>): seq<Act> {
    seq(|calls|, i requires 0 <= i < |calls| => Ran(calls[i], w.tool(t + i)))
  }

  function ResultsOf(w: World, t: nat, calls: seq<Call>): seq<Message> {
    seq(|calls|, i requires 0 <= i < |calls| => Tool(calls[i].id, w.tool(t + i).projection))
  }

  predicate SpeaksDirectly(w: World, u: nat) { w.tool(u).userText != "" && w.tool(u).direct }

  predicate DirectBy(w: World, t: nat, k: nat) { exists u: nat :: t <= u < t + k && SpeaksDirectly(w, u) }

  function Behind(acts: seq<Act>, x: Tooled): Tooled { x.(acts := acts + x.acts) }

  /** What is left of the calls after the first `k`. */
  function Rest(w: World, t: nat, calls: seq<Call>, working: seq<Message>, texts: seq<string>, direct: bool, k: nat): Tooled
    requires k <= |calls|
  {
    ToolsFrom(w, t + k, calls[k..], working + ResultsOf(w, t, calls[..k]), SaidBy(w, t, k, texts), direct || DirectBy(w, t, k))
  }

  ghost predicate Splits(w: World, t: nat, calls: seq<Call>, working: seq<Message>, texts: seq<string>, direct: bool, k: nat)
    requires k <= |calls|
  {
    ToolsFrom(w, t, calls, working, texts, direct) == Behind(RunsOf(w, t, calls[..k]), Rest(w, t, calls, working, texts, direct, k))
  }

  /** The first `k` calls run in turn; each result joins the transcript under its id, what it says joins the texts. */
  lemma {:induction false} ToolsSplit(
      w: World, t: nat, calls: seq<Call>, working: seq<Message>, texts: seq<string>, direct: bool, k: nat)
    requires k <= |calls| && FineUpTo(w, t, k)
    ensures Splits(w, t, calls, working, texts, direct, k)
    decreases k
  {
    if k == 0 {
      NoneRun(w, t, calls, working, texts, direct);
    } else {
      ToolsSplit(w, t, calls, working, texts, direct, k - 1);
      RestPeels(w, t, calls, working, texts, direct, k);
      SplitOn(w, t, calls, working, texts, direct, k);
    }
  }

  lemma NoneRun(w: World, t: nat, calls: seq<Call>, working: seq<Message>, texts: seq<string>, direct: bool)
    ensures Splits(w, t, calls, working, texts, direct, 0)
  {
    assert calls[0..] == calls && RunsOf(w, t, calls[..0]) == [] && working + ResultsOf(w, t, calls[..0]) == working;
    var x := ToolsFrom(w, t, calls, working, texts, direct);
    assert [] + x.acts == x.acts;
  }

  lemma RestPeels(w: World, t: nat, calls: seq<Call>, working: seq<Message>, texts: seq<string>, direct: bool, k: nat)
    requires 0 < k <= |calls| && FineUpTo(w, t, k)
    ensures Rest(w, t, calls, working, texts, direct, k - 1)
      == Behind([Ran(calls[k - 1], w.tool(t + k - 1))], Rest(w, t, calls, working, texts, direct, k))
  {
    var u, left, sofar := t + k - 1, calls[k - 1..], working + ResultsOf(w, t, calls[..k - 1]);
    assert Fine(w, u);
    SplitOn(w, t, calls, working, texts, direct, k);
    OneTool(w, u, left, sofar, SaidBy(w, t, k - 1, texts), direct || DirectBy(w, t, k - 1));
    assert left[0] == calls[k - 1] && left[1..] == calls[k..];
    assert sofar + [Tool(left[0].id, w.tool(u).projection)] == working + ResultsOf(w, t, calls[..k]);
    assert u + 1 == t + k;
  }

  lemma OneTool(w: World, t: nat, calls: seq<Call>, working: seq<Message>, texts: seq<string>, direct: bool)
    requires calls != [] && Fine(w, t)
    ensures ToolsFrom(w, t, calls, working, texts, direct) ==
      Behind([Ran(calls[0], w.tool(t))],
             ToolsFrom(w, t + 1, calls[1..], working + [Tool(calls[0].id, w.tool(t).projection)], Said(texts, w.tool(t)),
                       direct || SpeaksDirectly(w, t)))
  {
  }

  lemma SplitOn(w: World, t: nat, calls: seq<Call>, working: seq<Message>, texts: seq<string>, direct: bool, k: nat)
    requires 0 < k <= |calls|
    ensures calls[k - 1..][1..] == calls[k..] && calls[k - 1..][0] == calls[k - 1]
    ensures RunsOf(w, t, calls[..k]) == RunsOf(w, t, calls[..k - 1]) + [Ran(calls[k - 1], w.tool(t + k - 1))]
    ensures working + ResultsOf(w, t, calls[..k])
      == working + ResultsOf(w, t, calls[..k - 1]) + [Tool(calls[k - 1].id, w.tool(t + k - 1).projection)]
    ensures SaidBy(w, t, k, texts) == Said(SaidBy(w, t, k - 1, texts), w.tool(t + k - 1))
    ensures DirectBy(w, t, k) <==> DirectBy(w, t, k - 1) || SpeaksDirectly(w, t + k - 1)
    ensures var one := Ran(calls[k - 1], w.tool(t + k - 1));
      forall x: Tooled :: Behind(RunsOf(w, t, calls[..k - 1]), Behind([one], x)) == Behind(RunsOf(w, t, calls[..k]), x)
  {
    assert RunsOf(w, t, calls[..k]) == RunsOf(w, t, calls[..k - 1]) + [Ran(calls[k - 1], w.tool(t + k - 1))];
    if DirectBy(w, t, k - 1) {
      var u: nat :| t <= u < t + k - 1 && SpeaksDirectly(w, u);
      assert DirectBy(w, t, k);
    }
  }

  /** If all calls are fine, each has run and has its result, in order, and the run goes on unless one of them is a direct reply. */
  lemma FineToolsExactly(w: World, t: nat, calls: seq<Call>, working: seq<Message>, texts: seq<string>)
    requires FineUpTo(w, t, |calls|)
    ensures var x := ToolsFrom(w, t, calls, working, texts, false);
      && x.acts == RunsOf(w, t, calls) && x.grown == working + ResultsOf(w, t, calls)
      && x.texts == SaidBy(w, t, |calls|, texts) && (x.direct <==> DirectBy(w, t, |calls|)) && x.end == None
  {
    ToolsSplit(w, t, calls, working, texts, false, |calls|);
    assert calls[..|calls|] == calls && RunsOf(w, t, calls) + [] == RunsOf(w, t, calls);
  }

  /** At the first call that is not fine the run ends: in silence, or after the second hook with what the tools have said. */
  lemma FailedToolExactly(w: World, t: nat, calls: seq<Call>, working: seq<Message>, texts: seq<string>, k: nat)
    requires k < |calls| && FineUpTo(w, t, k) && !FineUpTo(w, t, k + 1)
    ensures var x, runs, said := ToolsFrom(w, t, calls, working, texts, false), RunsOf(w, t, calls[..k]), SaidBy(w, t, k + 1, texts);
      var ran := Ran(calls[k], w.tool(t + k));
      if w.before(t + k) then x.acts == runs + [HookFailed] && x.end == Some(Failed)
      else if w.after(t + k) then
        x.acts == runs + [ran, HookFailed] && x.end == Some(if w.ended(t + k + 2) || said == [] then Failed else Replied(said))
      else x.acts == runs + [ran] && x.end == Some(Failed)
  {
    ToolsSplit(w, t, calls, working, texts, false, k);
    SplitOn(w, t, calls, working, texts, false, k + 1);
    assert !Fine(w, t + k);
  }

  // ---- What a run does in each step ----

  /** A step without a plan ends the run with what its tools have said, unless the context is over. */
  lemma NoPlanExactly(w: World, t: nat, step: nat, working: seq<Message>, texts: seq<string>, input: Input)
    requires !PlanOf(w, t, step, working, input.reserving).1.Planned?
    ensures var acts := PlanOf(w, t, step, working, input.reserving).0;
      TakeStep(w, t, step, working, texts, input)
        == Over(Ending(acts, if w.ended(t + |acts|) || texts == [] then Failed else Replied(texts), texts, None))
  {
    var acts := PlanOf(w, t, step, working, input.reserving).0;
    assert acts + [] == acts;
  }

  /** A planned stop ends the run with what its tools have said, or stopped; a planned reply ends it with the replyer's answer. */
  lemma LastStepExactly(w: World, t: nat, step: nat, working: seq<Message>, texts: seq<string>, input: Input, acts: seq<Act>, plan: Plan)
    requires (acts, plan) == PlanOf(w, t, step, working, input.reserving) && plan.Planned? && !plan.decision.CallTools?
    ensures var x := TakeStep(w, t, step, working, texts, input);
      var (more, answer) := ReplyOf(w, t + |acts|, step, input.replyMessages, input.expecting, input.reserving);
      var silent := w.ended(t + |acts| + |more|) || texts == [];
      if plan.decision.Stop? then x == Over(Ending(acts, if texts == [] then Stopped else Replied(texts), texts, None))
      else if answer.Some? then x == Over(Ending(acts + more, Replied([answer.value]), texts, answer))
      else x == Over(Ending(acts + more, if silent then Failed else Replied(texts), texts, None))
  {
    assert acts + [] == acts;
  }

  /** Planned calls run on the transcript that now has them; a failure or a direct reply ends the run, else it goes on. */
  lemma ToolStepExactly(w: World, t: nat, step: nat, working: seq<Message>, texts: seq<string>, input: Input)
    requires PlanOf(w, t, step, working, input.reserving).1.Planned?
    requires PlanOf(w, t, step, working, input.reserving).1.decision.CallTools?
    ensures var next, (acts, plan) := TakeStep(w, t, step, working, texts, input), PlanOf(w, t, step, working, input.reserving);
      var x := ToolsFrom(w, t + |acts|, plan.calls, working + [Assistant("", plan.calls)], texts, false);
      if x.end.Some? then next == Over(Ending(acts + x.acts, x.end.value, x.texts, None))
      else if x.direct then next == Over(Ending(acts + x.acts, Replied(x.texts), x.texts, None))
      else next == On(acts + x.acts, x.grown, x.texts)
  {
  }

  /** A run takes its steps in turn until one ends it, at most four; after them it says what its tools have said. */
  lemma StepsExactly(f: Stepper, w: World, t: nat, step: nat, working: seq<Message>, texts: seq<string>)
    ensures var e, next := RunWith(f, w, t, step, working, texts), f(t, step, working, texts);
      if step > 4 then e == Ending([], if w.ended(t) || texts == [] then Failed else Replied(texts), texts, None)
      else if next.Over? then e == next.end
      else
        var rest := RunWith(f, w, t + |next.acts|, step + 1, next.working, next.texts);
        e == Ending(next.acts + rest.acts, rest.outcome, rest.texts, rest.answer)
  {
  }

  /** A run is its steps from the first on, each one that TakeStep describes. */
  lemma RunExactly(w: World, base: seq<Message>, input: Input)
    ensures RunOf(w, base, input) == RunWith(StepperOf(w, input), w, 0, 1, base, []) && Steps(StepperOf(w, input), w, input)
  {
  }

  // ---- Budget and transcript ----

  function Completions(log: seq<Act>, task: Task): nat
    decreases |log|
  {
    if log == [] then 0 else
      var last := log[|log| - 1];
      Completions(log[..|log| - 1], task) + if last.Completed? && last.task == task then 1 else 0
  }

  function Granted(log: seq<Act>, task: Task): nat
    decreases |log|
  {
    if log == [] then 0 else
      var last := log[|log| - 1];
      Granted(log[..|log| - 1], task) + if last == Reserved(task, true) then 1 else 0
  }

  lemma {:induction false} CountsConcat(a: seq<Act>, b: seq<Act>, task: Task)
    ensures Completions(a + b, task) == Completions(a, task) + Completions(b, task)
    ensures Granted(a + b, task) == Granted(a, task) + Granted(b, task)
    decreases |b|
  {
    if b == [] {
      assert a + b == a;
    } else {
      CountsConcat(a, b[..|b| - 1], task);
      assert (a + b)[..|a + b| - 1] == a + b[..|b| - 1];
    }
  }

  /** Every completion had a valid request and, where calls are reserved, its own reservation right before it. */
  predicate Paid(log: seq<Act>, reserving: bool) { forall i :: 0 <= i < |log| ==> PaidAt(log, i, reserving) }

  predicate PaidAt(log: seq<Act>, i: nat, reserving: bool)
    requires i < |log|
  {
    log[i].Completed? ==>
      && 0 < log[i].step <= MAX_STEPS && ValidRequest(MessagesOf(log[i]))
      && (reserving ==> i > 0 && log[i - 1] == Reserved(log[i].task, true))
  }

  lemma {:induction false} PaidCounts(log: seq<Act>, task: Task)
    requires Paid(log, true)
    ensures Completions(log, task) <= Granted(log, task)
    ensures log != [] && log[|log| - 1] == Reserved(task, true) ==> Completions(log, task) < Granted(log, task)
    decreases |log|
  {
    if log != [] {
      var init := log[..|log| - 1];
      assert Paid(init, true) by {
        forall i | 0 <= i < |init| ensures PaidAt(init, i, true) { assert PaidAt(log, i, true); }
      }
      PaidCounts(init, task);
      assert PaidAt(log, |log| - 1, true);
      if log[|log| - 1].Completed? { assert log[|log| - 2] == init[|init| - 1]; }
    }
  }

  lemma PaidConcat(a: seq<Act>, b: seq<Act>, reserving: bool)
    requires Paid(a, reserving) && Paid(b, reserving)
    ensures Paid(a + b, reserving)
  {
    forall i | 0 <= i < |a + b| ensures PaidAt(a + b, i, reserving) {
      if i < |a| { assert PaidAt(a, i, reserving); } else { assert PaidAt(b, i - |a|, reserving); }
    }
  }

  /** Planner requests: each extends the ones before it and `base`, and groups calls with results if `base` does. */
  predicate Growing(log: seq<Act>, base: seq<Message>, working: seq<Message>) {
    && (forall i :: 0 <= i < |log| && PlannerCall(log[i]) ==>
          base <= log[i].stem <= working && (Grouped(base) ==> Grouped(MessagesOf(log[i]))))
    && (forall i, j :: 0 <= i < j < |log| && PlannerCall(log[i]) && PlannerCall(log[j]) ==> log[i].stem <= log[j].stem)
  }

  predicate PlannerCall(a: Act) { a.Completed? && a.task == Planner }

  /** Every request for the reply is made of the given messages. */
  predicate RepliesTo(log: seq<Act>, messages: seq<Message>) {
    forall i :: 0 <= i < |log| && log[i].Completed? && log[i].task == Replyer ==> log[i].stem == messages
  }

  /** The acts are paid for and hold at most so many completions of either task. */
  predicate Sound(acts: seq<Act>, planner: nat, replyer: nat, reserving: bool) {
    Paid(acts, reserving) && Completions(acts, Planner) <= planner && Completions(acts, Replyer) <= replyer
  }

  lemma SoundConcat(a: seq<Act>, b: seq<Act>, p: nat, q: nat, r: nat, t: nat, reserving: bool)
    requires Sound(a, p, r, reserving) && Sound(b, q, t, reserving)
    ensures Sound(a + b, p + q, r + t, reserving)
  {
    PaidConcat(a, b, reserving);
    CountsConcat(a, b, Planner);
    CountsConcat(a, b, Replyer);
  }

  /** Every completion among the acts is of this task, made at this step for this request. */
  predicate AllOf(acts: seq<Act>, task: Task, step: nat, stem: seq<Message>) {
    forall i :: 0 <= i < |acts| && acts[i].Completed? ==> acts[i].task == task && acts[i].step == step && acts[i].stem == stem
  }

  predicate Silent(acts: seq<Act>) { forall i :: 0 <= i < |acts| ==> !acts[i].Completed? }

  lemma {:induction false} SilentCosts(acts: seq<Act>, reserving: bool)
    requires Silent(acts)
    ensures Sound(acts, 0, 0, reserving)
    decreases |acts|
  {
    if acts != [] { SilentCosts(acts[..|acts| - 1], reserving); }
  }

  ghost predicate Spent(acts: seq<Act>, task: Task, step: nat, stem: seq<Message>, m: nat, reserving: bool) {
    AllOf(acts, task, step, stem) && Sound(acts, if task == Planner then m else 0, if task == Replyer then m else 0, reserving)
  }

  /** At most `n` attempts at one request, each paid for. */
  ghost predicate Attempts(acts: seq<Act>, task: Task, step: nat, stem: seq<Message>, n: nat, reserving: bool) {
    exists m: nat :: m <= n && Spent(acts, task, step, stem, m, reserving)
  }

  lemma AskCosts(w: World, t: nat, task: Task, step: nat, stem: seq<Message>, repair: bool, reserving: bool)
    requires 0 < step <= MAX_STEPS
    ensures Attempts(Ask(w, t, task, step, stem, repair, reserving).0, task, step, stem, 1, reserving)
  {
    var acts := Ask(w, t, task, step, stem, repair, reserving).0;
    CountFew(acts, Planner);
    CountFew(acts, Replyer);
    assert Spent(acts, task, step, stem, 1, reserving);
  }

  lemma CountFew(acts: seq<Act>, task: Task)
    requires 0 < |acts| <= 2 && (|acts| == 2 ==> !acts[0].Completed?)
    ensures var last := acts[|acts| - 1];
      Completions(acts, task) == if last.Completed? && last.task == task then 1 else 0
  {
    assert Completions([], task) == 0;
    if |acts| == 1 { assert acts[..0] == []; } else { assert acts[..1][..0] == []; }
  }

  lemma SilentAfter(asked: seq<Act>, more: seq<Act>, step: nat, working: seq<Message>, reserving: bool)
    requires Attempts(asked, Planner, step, working, 1, reserving) && Silent(more)
    ensures Attempts(asked + more, Planner, step, working, 1, reserving)
  {
    var m: nat :| m <= 1 && Spent(asked, Planner, step, working, m, reserving);
    SilentCosts(more, reserving);
    SoundConcat(asked, more, m, 0, 0, 0, reserving);
    assert Spent(asked + more, Planner, step, working, m, reserving);
  }

  lemma DecidingIsSilent(w: World, t: nat, r: Response)
    requires r.Response?
    ensures Silent(Decide(w, t, r).0)
  {
  }

  lemma PlanOnceCosts(w: World, t: nat, step: nat, working: seq<Message>, repair: bool, reserving: bool)
    requires 0 < step <= MAX_STEPS
    ensures Attempts(PlanOnce(w, t, step, working, repair, reserving).0, Planner, step, working, 1, reserving)
  {
    var (acts, r) := Ask(w, t, Planner, step, working, repair, reserving);
    AskCosts(w, t, Planner, step, working, repair, reserving);
    if r.Response? {
      DecidingIsSilent(w, t + |acts|, r);
      SilentAfter(acts, Decide(w, t + |acts|, r).0, step, working, reserving);
    }
  }

  lemma PlanCosts(w: World, t: nat, step: nat, working: seq<Message>, reserving: bool)
    requires 0 < step <= MAX_STEPS
    ensures Attempts(PlanOf(w, t, step, working, reserving).0, Planner, step, working, 2, reserving)
  {
    var acts := PlanOnce(w, t, step, working, false, reserving).0;
    PlanOnceCosts(w, t, step, working, false, reserving);
    PlanOnceCosts(w, t + |acts|, step, working, true, reserving);
    TwoAttempts(acts, PlanOnce(w, t + |acts|, step, working, true, reserving).0, Planner, step, working, reserving);
  }

  lemma TwoAttempts(a: seq<Act>, b: seq<Act>, task: Task, step: nat, stem: seq<Message>, reserving: bool)
    requires Attempts(a, task, step, stem, 1, reserving) && Attempts(b, task, step, stem, 1, reserving)
    ensures Attempts(a, task, step, stem, 2, reserving) && Attempts(a + b, task, step, stem, 2, reserving)
  {
    var m: nat :| m <= 1 && Spent(a, task, step, stem, m, reserving);
    var n: nat :| n <= 1 && Spent(b, task, step, stem, n, reserving);
    if task == Planner { SoundConcat(a, b, m, n, 0, 0, reserving); } else { SoundConcat(a, b, 0, 0, m, n, reserving); }
    assert Spent(a + b, task, step, stem, m + n, reserving);
  }

  /** The last act is the replyer's completion that answered with this text. */
  predicate EndsWith(log: seq<Act>, answer: string) {
    log != [] && var last := log[|log| - 1];
    last.Completed? && last.task == Replyer && last.response.Response? && last.response.reply == Some(answer)
  }

  lemma ReplyOnceCosts(w: World, t: nat, step: nat, messages: seq<Message>, repair: bool, reserving: bool)
    requires 0 < step <= MAX_STEPS
    ensures Attempts(ReplyOnce(w, t, step, messages, repair, reserving).0, Replyer, step, messages, 1, reserving)
  {
    AskCosts(w, t, Replyer, step, messages, repair, reserving);
  }

  lemma ReplyCosts(w: World, t: nat, step: nat, messages: seq<Message>, expecting: bool, reserving: bool)
    requires 0 < step <= MAX_STEPS
    ensures Attempts(ReplyOf(w, t, step, messages, expecting, reserving).0, Replyer, step, messages, if expecting then 2 else 1, reserving)
  {
    var first := ReplyOnce(w, t, step, messages, false, reserving).0;
    ReplyOnceCosts(w, t, step, messages, false, reserving);
    if expecting {
      ReplyOnceCosts(w, t + |first|, step, messages, true, reserving);
      TwoAttempts(first, ReplyOnce(w, t + |first|, step, messages, true, reserving).0, Replyer, step, messages, reserving);
    }
  }

  lemma AnswerIsLast(w: World, t: nat, step: nat, messages: seq<Message>, expecting: bool, reserving: bool)
    requires ReplyOf(w, t, step, messages, expecting, reserving).1.Some?
    ensures var (acts, answer) := ReplyOf(w, t, step, messages, expecting, reserving); EndsWith(acts, answer.value)
  {
  }

  /** Tools neither ask a model nor take anything out of the transcript, and each that is done leaves its result behind it. */
  lemma {:induction false} ToolsCost(w: World, t: nat, calls: seq<Call>, working: seq<Message>, texts: seq<string>, direct: bool)
    ensures var x := ToolsFrom(w, t, calls, working, texts, direct);
      && Silent(x.acts) && working <= x.grown && (x.end.None? ==> Answers(x.grown[|working|..], calls))
      && (texts != [] ==> x.texts != []) && (x.direct ==> x.texts != [] || direct)
      && (x.end.Some? ==> x.end.value == Failed || (x.texts != [] && x.end.value == Replied(x.texts)))
    decreases |calls|
  {
    if calls != [] && Fine(w, t) {
      var o := w.tool(t);
      var more := working + [Tool(calls[0].id, o.projection)];
      ToolsCost(w, t + 1, calls[1..], more, Said(texts, o), direct || (o.userText != "" && o.direct));
      var x := ToolsFrom(w, t, calls, working, texts, direct);
      if x.end.None? { assert x.grown[|working|..][0] == more[|working|] && x.grown[|working|..][1..] == x.grown[|more|..]; }
    }
  }

  /** What is said to the user is the replyer's answer or the gathered tool results; silence means there were none. */
  predicate Justified(e: Ending) {
    match e.outcome
    case Failed => e.answer.None?
    case Stopped => e.texts == [] && e.answer.None?
    case Replied(words) =>
      if e.answer.Some? then words == [e.answer.value] && EndsWith(e.acts, e.answer.value) else e.texts != [] && words == e.texts
  }

  function Replies(input: Input): nat { if input.expecting then 2 else 1 }

  /** What one step keeps: at most two completions of the planner for this transcript, which only grows, to `grown`. */
  ghost predicate KeptTo(x: Turning, working: seq<Message>, grown: seq<Message>, input: Input) {
    match x
    case Over(e) =>
      Sound(e.acts, 2, Replies(input), input.reserving) && Growing(e.acts, working, working)
      && RepliesTo(e.acts, input.replyMessages) && Justified(e)
    case On(acts, more, said) =>
      Sound(acts, 2, 0, input.reserving) && Growing(acts, working, working) && RepliesTo(acts, input.replyMessages)
      && more == grown && working <= grown && (Grouped(working) ==> Grouped(grown))
  }

  ghost predicate Kept(x: Turning, working: seq<Message>, input: Input) { exists grown :: KeptTo(x, working, grown, input) }

  lemma PlannerGrows(acts: seq<Act>, more: seq<Act>, step: nat, working: seq<Message>, messages: seq<Message>)
    requires AllOf(acts, Planner, step, working) && AllOf(more, Replyer, step, messages)
    ensures Growing(acts + more, working, working) && RepliesTo(acts + more, messages)
  {
    if Grouped(working) {
      assert Grouped([REPAIR_PROMPT]) by { ToolFreeIsGrouped([REPAIR_PROMPT]); }
      GroupedConcat(working, [REPAIR_PROMPT]);
      assert working + [] == working;
    }
  }

  /** An end without the replyer. */
  lemma UnaskedIsKept(acts: seq<Act>, outcome: Outcome, texts: seq<string>, step: nat, working: seq<Message>, input: Input)
    requires Attempts(acts, Planner, step, working, 2, input.reserving)
    requires outcome == Failed || (outcome == Stopped && texts == []) || (outcome == Replied(texts) && texts != [])
    ensures Kept(Over(Ending(acts, outcome, texts, None)), working, input)
  {
    PlannerGrows(acts, [], step, working, input.replyMessages);
    assert acts + [] == acts;
    assert KeptTo(Over(Ending(acts, outcome, texts, None)), working, working, input);
  }

  /** An end after asking the replyer. */
  lemma AskedIsKept(acts: seq<Act>, more: seq<Act>, answer: Option<string>, outcome: Outcome, texts: seq<string>, step: nat,
                    working: seq<Message>, input: Input)
    requires Attempts(acts, Planner, step, working, 2, input.reserving)
    requires Attempts(more, Replyer, step, input.replyMessages, Replies(input), input.reserving)
    requires if answer.Some? then EndsWith(more, answer.value) && outcome == Replied([answer.value])
             else outcome == Failed || (outcome == Replied(texts) && texts != [])
    ensures Kept(Over(Ending(acts + more, outcome, texts, answer)), working, input)
  {
    SoundConcat(acts, more, 2, 0, 0, Replies(input), input.reserving);
    PlannerGrows(acts, more, step, working, input.replyMessages);
    if answer.Some? { assert (acts + more)[|acts + more| - 1] == more[|more| - 1]; }
    assert KeptTo(Over(Ending(acts + more, outcome, texts, answer)), working, working, input);
  }

  lemma StepKeeps(w: World, t: nat, step: nat, working: seq<Message>, texts: seq<string>, input: Input)
    requires 0 < step <= MAX_STEPS
    ensures Kept(TakeStep(w, t, step, working, texts, input), working, input)
  {
    var (acts, plan) := PlanOf(w, t, step, working, input.reserving);
    if !plan.Planned? {
      PlanCosts(w, t, step, working, input.reserving);
      NoPlanExactly(w, t, step, working, texts, input);
      UnaskedIsKept(acts, FallBack(w, t + |acts|, texts), texts, step, working, input);
    } else if plan.decision.CallTools? {
      ToolStepKeeps(w, t, step, working, texts, input);
    } else if plan.decision.Stop? {
      StopStepKeeps(w, t, step, working, texts, input, acts, plan);
    } else {
      ReplyStepKeeps(w, t, step, working, texts, input, acts, plan);
    }
  }

  lemma StopStepKeeps(
      w: World, t: nat, step: nat, working: seq<Message>, texts: seq<string>, input: Input, acts: seq<Act>, plan: Plan)
    requires 0 < step <= MAX_STEPS && (acts, plan) == PlanOf(w, t, step, working, input.reserving)
    requires plan.Planned? && plan.decision.Stop?
    ensures Kept(TakeStep(w, t, step, working, texts, input), working, input)
  {
    LastStepExactly(w, t, step, working, texts, input, acts, plan);
    PlanCosts(w, t, step, working, input.reserving);
    UnaskedIsKept(acts, if texts == [] then Stopped else Replied(texts), texts, step, working, input);
  }

  /** The end of a step that asks the replyer, behind the acts of its plan. */
  function Asked(w: World, u: nat, acts: seq<Act>, step: nat, texts: seq<string>, input: Input): Turning {
    var (more, answer) := ReplyOf(w, u, step, input.replyMessages, input.expecting, input.reserving);
    Over(Ending(acts + more, if answer.Some? then Replied([answer.value]) else FallBack(w, u + |more|, texts), texts, answer))
  }

  lemma ReplyStepIs(
      w: World, t: nat, step: nat, working: seq<Message>, texts: seq<string>, input: Input, acts: seq<Act>, plan: Plan)
    requires (acts, plan) == PlanOf(w, t, step, working, input.reserving)
    requires plan.Planned? && !plan.decision.CallTools? && !plan.decision.Stop?
    ensures TakeStep(w, t, step, working, texts, input) == Asked(w, t + |acts|, acts, step, texts, input)
  {
  }

  lemma ReplyStepKeeps(
      w: World, t: nat, step: nat, working: seq<Message>, texts: seq<string>, input: Input, acts: seq<Act>, plan: Plan)
    requires 0 < step <= MAX_STEPS && (acts, plan) == PlanOf(w, t, step, working, input.reserving)
    requires plan.Planned? && !plan.decision.CallTools? && !plan.decision.Stop?
    ensures Kept(TakeStep(w, t, step, working, texts, input), working, input)
  {
    ReplyStepIs(w, t, step, working, texts, input, acts, plan);
    PlanCosts(w, t, step, working, input.reserving);
    ReplyIsKept(w, t + |acts|, acts, step, working, texts, input);
  }

  lemma ReplyIsKept(w: World, u: nat, acts: seq<Act>, step: nat, working: seq<Message>, texts: seq<string>, input: Input)
    requires 0 < step <= MAX_STEPS && Attempts(acts, Planner, step, working, 2, input.reserving)
    ensures Kept(Asked(w, u, acts, step, texts, input), working, input)
  {
    var (more, answer) := ReplyOf(w, u, step, input.replyMessages, input.expecting, input.reserving);
    ReplyCosts(w, u, step, input.replyMessages, input.expecting, input.reserving);
    if answer.Some? { AnswerIsLast(w, u, step, input.replyMessages, input.expecting, input.reserving); }
    AskedIsKept(acts, more, answer, Asked(w, u, acts, step, texts, input).end.outcome, texts, step, working, input);
  }

  lemma ToolStepKeeps(w: World, t: nat, step: nat, working: seq<Message>, texts: seq<string>, input: Input)
    requires 0 < step <= MAX_STEPS && PlanOf(w, t, step, working, input.reserving).1.Planned?
    requires PlanOf(w, t, step, working, input.reserving).1.decision.CallTools?
    ensures Kept(TakeStep(w, t, step, working, texts, input), working, input)
  {
    var (acts, plan) := PlanOf(w, t, step, working, input.reserving);
    PlanCosts(w, t, step, working, input.reserving);
    ToolStepExactly(w, t, step, working, texts, input);
    ToolsAreKept(w, t + |acts|, acts, plan.calls, step, working, texts, input);
  }

  lemma ToolsAreKept(w: World, u: nat, acts: seq<Act>, calls: seq<Call>, step: nat, working: seq<Message>, texts: seq<string>, input: Input)
    requires Attempts(acts, Planner, step, working, 2, input.reserving)
    ensures var x := ToolsFrom(w, u, calls, working + [Assistant("", calls)], texts, false);
      && (x.end.Some? ==> Kept(Over(Ending(acts + x.acts, x.end.value, x.texts, None)), working, input))
      && (x.end.None? && x.direct ==> Kept(Over(Ending(acts + x.acts, Replied(x.texts), x.texts, None)), working, input))
      && (x.end.None? ==> Kept(On(acts + x.acts, x.grown, x.texts), working, input))
  {
    var called := working + [Assistant("", calls)];
    var x := ToolsFrom(w, u, calls, called, texts, false);
    ToolsCost(w, u, calls, called, texts, false);
    SilentCosts(x.acts, input.reserving);
    SoundConcat(acts, x.acts, 2, 0, 0, 0, input.reserving);
    PlannerGrows(acts, x.acts, step, working, input.replyMessages);
    if x.end.None? {
      GroupGrows(working, calls, x.grown);
      assert KeptTo(On(acts + x.acts, x.grown, x.texts), working, x.grown, input);
      assert KeptTo(Over(Ending(acts + x.acts, Replied(x.texts), x.texts, None)), working, working, input) || !x.direct;
    } else {
      assert KeptTo(Over(Ending(acts + x.acts, x.end.value, x.texts, None)), working, working, input);
    }
  }

  /** A tool call with its results extends the transcript by one group. */
  lemma GroupGrows(working: seq<Message>, calls: seq<Call>, grown: seq<Message>)
    requires working + [Assistant("", calls)] <= grown && Answers(grown[|working| + 1..], calls)
    ensures Grouped(working) ==> Grouped(grown)
  {
    var group := grown[|working|..];
    assert grown == working + group;
    if Grouped(working) {
      assert group[0] == Assistant("", calls) && group[1..] == grown[|working| + 1..];
      assert group[1..|calls| + 1] == group[1..] && group[|calls| + 1..] == [];
      assert Grouped(group);
      GroupedConcat(working, group);
    }
  }

  /** What a whole run keeps, with the transcript that it ends with. */
  ghost predicate WellRun(e: Ending, steps: nat, working: seq<Message>, end: seq<Message>, input: Input) {
    && Sound(e.acts, 2 * steps, Replies(input), input.reserving) && Growing(e.acts, working, end)
    && RepliesTo(e.acts, input.replyMessages) && Justified(e)
  }

  lemma GrowsOn(a: seq<Act>, b: seq<Act>, working: seq<Message>, grown: seq<Message>, end: seq<Message>)
    requires Growing(a, working, working) && Growing(b, grown, end) && working <= grown && (Grouped(working) ==> Grouped(grown))
    ensures Growing(a + b, working, if working <= end then end else working)
  {
  }

  ghost predicate RunsWell(e: Ending, steps: nat, working: seq<Message>, input: Input) {
    exists end :: WellRun(e, steps, working, end, input)
  }

  /** Every step of `f` keeps what a step keeps. */
  ghost predicate KeepsSteps(f: Stepper, input: Input) {
    forall t: nat, step: nat, working: seq<Message>, texts: seq<string> :: 0 < step <= MAX_STEPS ==>
      Kept(f(t, step, working, texts), working, input)
  }

  lemma {:induction false} RunKeeps(
      f: Stepper, w: World, t: nat, step: nat, working: seq<Message>, texts: seq<string>, input: Input)
    requires KeepsSteps(f, input) && 0 < step <= MAX_STEPS + 1
    ensures RunsWell(RunWith(f, w, t, step, working, texts), MAX_STEPS + 1 - step, working, input)
    decreases MAX_STEPS + 1 - step
  {
    StepsExactly(f, w, t, step, working, texts);
    if step > MAX_STEPS {
      LimitIsWell(FallBack(w, t, texts), texts, working, input);
    } else {
      var next := f(t, step, working, texts);
      if next.On? {
        RunKeeps(f, w, t + |next.acts|, step + 1, next.working, next.texts, input);
        MoreIsWell(next, RunWith(f, w, t + |next.acts|, step + 1, next.working, next.texts), MAX_STEPS - step, working, input);
      } else {
        OverIsWell(next, MAX_STEPS - step, working, input);
      }
    }
  }

  lemma StepperKeeps(w: World, input: Input)
    ensures KeepsSteps(StepperOf(w, input), input)
  {
    forall t: nat, step: nat, working: seq<Message>, texts: seq<string> | 0 < step <= MAX_STEPS
      ensures Kept(StepperOf(w, input)(t, step, working, texts), working, input)
    {
      StepKeeps(w, t, step, working, texts, input);
    }
  }

  lemma RunIsWell(w: World, base: seq<Message>, input: Input)
    ensures RunsWell(RunOf(w, base, input), MAX_STEPS, base, input)
  {
    StepperKeeps(w, input);
    RunKeeps(StepperOf(w, input), w, 0, 1, base, [], input);
  }

  lemma LimitIsWell(outcome: Outcome, texts: seq<string>, working: seq<Message>, input: Input)
    requires outcome == Failed || (outcome == Replied(texts) && texts != [])
    ensures RunsWell(Ending([], outcome, texts, None), 0, working, input)
  {
    assert WellRun(Ending([], outcome, texts, None), 0, working, working, input);
  }

  lemma OverIsWell(next: Turning, steps: nat, working: seq<Message>, input: Input)
    requires next.Over? && Kept(next, working, input)
    ensures RunsWell(next.end, steps + 1, working, input)
  {
    assert WellRun(next.end, steps + 1, working, working, input);
  }

  lemma MoreIsWell(next: Turning, rest: Ending, steps: nat, working: seq<Message>, input: Input)
    requires next.On? && Kept(next, working, input) && RunsWell(rest, steps, next.working, input)
    ensures RunsWell(Ending(next.acts + rest.acts, rest.outcome, rest.texts, rest.answer), steps + 1, working, input)
  {
    var last :| WellRun(rest, steps, next.working, last, input);
    var end := RunGoesOn(next, rest, steps, working, last, input);
  }

  lemma RunGoesOn(next: Turning, rest: Ending, steps: nat, working: seq<Message>, last: seq<Message>, input: Input)
    returns (end: seq<Message>)
    requires next.On? && Kept(next, working, input) && WellRun(rest, steps, next.working, last, input)
    ensures WellRun(Ending(next.acts + rest.acts, rest.outcome, rest.texts, rest.answer), steps + 1, working, end, input)
  {
    end := if working <= last then last else working;
    var grown :| KeptTo(next, working, grown, input);
    SoundConcat(next.acts, rest.acts, 2, 2 * steps, 0, Replies(input), input.reserving);
    GrowsOn(next.acts, rest.acts, working, next.working, last);
  }

  // ---- The loops ----

  class AgentRuntime {
    var log: seq<Act>  // of the run in progress

    constructor () { log := []; }

    method Note(act: Act)
      modifies this
      ensures log == old(log) + [act]
    {
      log := log + [act];
    }

    /** Checks the request, reserves the call, and only then asks the model. */
    method Complete(w: World, task: Task, step: nat, stem: seq<Message>, repair: bool, reserving: bool)
      returns (r: Response, ghost acts: seq<Act>)
      modifies this
      ensures (acts, r) == Ask(w, |old(log)|, task, step, stem, repair, reserving) && log == old(log) + acts
    {
      acts := Ask(w, |log|, task, step, stem, repair, reserving).0;
      if w.ended(|log|) {
        Note(Ended);
        return Failure(false), acts;
      }
      if !ValidRequest(RequestOf(stem, repair)) {
        Note(Invalid(task));
        return Failure(false), acts;
      }
      if reserving {
        var granted := w.granted(|log|);
        Note(Reserved(task, granted));
        if !granted { return Failure(false), acts; }
      }
      r := w.answer(|log|);
      Note(Completed(task, step, stem, repair, r));
    }

    /** At most one repair, after an answer that cannot be used. */
    method MakePlan(w: World, step: nat, working: seq<Message>, reserving: bool) returns (plan: Plan, ghost acts: seq<Act>)
      modifies this
      ensures (acts, plan) == PlanOf(w, |old(log)|, step, working, reserving) && log == old(log) + acts
    {
      acts := PlanOf(w, |log|, step, working, reserving).0;
      ghost var first;
      plan, first := TryPlan(w, step, working, false, reserving);
      if !plan.Unusable? { return; }
      plan, first := TryPlan(w, step, working, true, reserving);
      if plan.Unusable? { plan := NoPlan; }
    }

    method TryPlan(w: World, step: nat, working: seq<Message>, repair: bool, reserving: bool) returns (plan: Plan, ghost acts: seq<Act>)
      modifies this
      ensures (acts, plan) == PlanOnce(w, |old(log)|, step, working, repair, reserving) && log == old(log) + acts
    {
      acts := PlanOnce(w, |log|, step, working, repair, reserving).0;
      var response, asked := Complete(w, Planner, step, working, repair, reserving);
      if response.Failure? { return if response.repairable then Unusable else NoPlan, acts; }
      ghost var more;
      plan, more := DecisionFrom(w, response);
    }

    /** Native tool calls keep their ids; decoded ones get new ids. Only an undecodable answer is worth a repair. */
    method DecisionFrom(w: World, response: Response) returns (plan: Plan, ghost acts: seq<Act>)
      requires response.Response?
      modifies this
      ensures (acts, plan) == Decide(w, |old(log)|, response) && log == old(log) + acts
    {
      acts := [];
      if response.calls != [] { return Planned(CallTools(RequestsOf(response.calls)), response.calls), acts; }
      if response.decision.None? { return Unusable, acts; }
      if !response.decision.value.CallTools? { return Planned(response.decision.value, []), acts; }
      var requests := response.decision.value.requests;
      var calls: seq<Call> := [];
      for i := 0 to |requests|
        invariant CallsFor(w, |log|, requests[..i]) == Some(calls) && log == old(log)
      {
        assert requests[..i + 1][..i] == requests[..i];
        var id := w.id(|log|, i);
        if id.None? {
          NoCallsWithout(w, |log|, requests, i);
          Note(NoID);
          return NoPlan, [NoID];
        }
        calls := calls + [Call(id.value, requests[i].name, requests[i].arguments)];
      }
      assert requests[..|requests|] == requests;
      plan := Planned(response.decision.value, calls);
    }

    /** An expected reply is worth one repair. */
    method Reply(w: World, step: nat, messages: seq<Message>, expecting: bool, reserving: bool)
      returns (answer: Option<string>, ghost acts: seq<Act>)
      modifies this
      ensures (acts, answer) == ReplyOf(w, |old(log)|, step, messages, expecting, reserving) && log == old(log) + acts
    {
      acts := ReplyOf(w, |log|, step, messages, expecting, reserving).0;
      var response, asked := Complete(w, Replyer, step, messages, false, reserving);
      if response.Response? && response.calls == [] && response.reply.Some? { return response.reply, acts; }
      if !expecting || (response.Failure? && !response.repairable) { return None, acts; }
      response, asked := Complete(w, Replyer, step, messages, true, reserving);
      answer := if response.Response? && response.calls == [] then response.reply else None;
    }

    /** Runs the calls one after the other; each adds its result to the transcript. */
    method RunTools(w: World, calls: seq<Call>, working: seq<Message>, texts: seq<string>) returns (x: Tooled)
      modifies this
      ensures x == ToolsFrom(w, |old(log)|, calls, working, texts, false) && log == old(log) + x.acts
    {
      var start, grown, said, direct, end := |log|, working, texts, false, None;
      ghost var all := ToolsFrom(w, |log|, calls, working, texts, false);
      assert calls[0..] == calls && [] + all.acts == all.acts;
      for index := 0 to |calls|
        invariant start == |old(log)| <= |log| && log[..start] == old(log)
        invariant Pending(all, log[start..], w, |log|, calls[index..], grown, said, direct)
      {
        grown, said, direct, end := AddCall(w, calls[index..], grown, said, direct, all, start);
        if end.Some? { return Tooled(log[start..], grown, said, direct, end); }
        assert calls[index..][1..] == calls[index + 1..];
      }
      assert calls[|calls|..] == [];
      x := Tooled(log[start..], grown, said, direct, None);
    }

    /** The first of the calls that are left. */
    method AddCall(w: World, left: seq<Call>, working: seq<Message>, texts: seq<string>, spoke: bool, ghost all: Tooled, ghost start: nat)
      returns (grown: seq<Message>, said: seq<string>, direct: bool, end: Option<Outcome>)
      requires left != [] && start <= |log| && Pending(all, log[start..], w, |log|, left, working, texts, spoke)
      modifies this
      ensures old(log) <= log
      ensures end.Some? ==> all == Tooled(log[start..], grown, said, direct, end)
      ensures end.None? ==> Pending(all, log[start..], w, |log|, left[1..], grown, said, direct)
    {
      grown, said, direct, end := working, texts, spoke, None;
      ghost var done, u := log[start..], |log|;
      ToolEnds(w, u, left, working, texts, spoke, done);
      var failed, o := CallTool(w, left[0]);
      if o.None? {
        assert log[start..] == done + [HookFailed];
        end := Some(Failed);
        return;
      }
      said, direct := Said(texts, o.value), spoke || (o.value.userText != "" && o.value.direct);
      assert log[start..] == done + if failed then [Ran(left[0], o.value), HookFailed] else [Ran(left[0], o.value)];
      if failed {
        end := Some(FallBack(w, |log|, said));
      } else if o.value.interrupted {
        end := Some(Failed);
      } else {
        grown := working + [Tool(left[0].id, o.value.projection)];
        BehindBehind(done, [Ran(left[0], o.value)], ToolsFrom(w, |log|, left[1..], grown, said, direct));
      }
    }

    /** One call between its two hooks; without an outcome the first hook failed. */
    method CallTool(w: World, call: Call) returns (failed: bool, o: Option<ToolOutcome>)
      modifies this
      ensures var u := |old(log)|;
        && (w.before(u) ==> failed && o == None && log == old(log) + [HookFailed])
        && (!w.before(u) ==> o == Some(w.tool(u)) && (failed <==> w.after(u)))
        && (!w.before(u) ==> log == old(log) + if failed then [Ran(call, w.tool(u)), HookFailed] else [Ran(call, w.tool(u))])
    {
      var u := |log|;
      if w.before(u) {
        Note(HookFailed);
        return true, None;
      }
      o := Some(w.tool(u));
      Note(Ran(call, o.value));
      failed := w.after(u);
      if failed { Note(HookFailed); }
    }

    /** What a step does after its plan: nothing more, the tools, or the reply. */
    method FollowPlan(w: World, step: nat, plan: Plan, working: seq<Message>, texts: seq<string>, input: Input) returns (x: Turning)
      modifies this
      ensures x == Continue(w, |old(log)|, step, working, texts, input, plan)
      ensures log == old(log) + ActsOf(x)
    {
      if !plan.Planned? { return Over(Ending([], FallBack(w, |log|, texts), texts, None)); }
      match plan.decision
      case CallTools(_) =>
        var t := RunTools(w, plan.calls, working + [Assistant("", plan.calls)], texts);
        if t.end.Some? { return Over(Ending(t.acts, t.end.value, t.texts, None)); }
        if t.direct { return Over(Ending(t.acts, Replied(t.texts), t.texts, None)); }
        x := On(t.acts, t.grown, t.texts);
      case Stop => x := Over(Ending([], if texts != [] then Replied(texts) else Stopped, texts, None));
      case _ =>
        var start := |log|;
        var answer, acts := Reply(w, step, input.replyMessages, input.expecting, input.reserving);
        x := Over(Ending(log[start..], if answer.Some? then Replied([answer.value]) else FallBack(w, |log|, texts), texts, answer));
    }

    method Advance(w: World, step: nat, working: seq<Message>, texts: seq<string>, input: Input, ghost f: Stepper) returns (x: Turning)
      requires Steps(f, w, input)
      modifies this
      ensures x == f(|old(log)|, step, working, texts) && log == old(log) + ActsOf(x)
    {
      var start := |log|;
      var plan, acts := MakePlan(w, step, working, input.reserving);
      ghost var u := |log|;
      var next := FollowPlan(w, step, plan, working, texts, input);
      StepIs(w, start, step, working, texts, input, acts, plan, next, f);
      assert log[start..] == acts + ActsOf(next);
      x := WithActs(log[start..], next);
    }

    /** One more step of a run that is under way. */
    method GoOn(w: World, step: nat, working: seq<Message>, texts: seq<string>, input: Input, ghost f: Stepper, ghost all: Ending)
      returns (next: Turning)
      requires Steps(f, w, input) && step <= MAX_STEPS && Underway(all, log, f, w, step, working, texts)
      modifies this
      ensures next.Over? ==> all == next.end.(acts := log)
      ensures next.On? ==> Underway(all, log, f, w, step + 1, next.working, next.texts)
    {
      ghost var so := log;
      next := Advance(w, step, working, texts, input, f);
      UnderwayOn(all, so, log, f, w, step, working, texts, next);
    }

    method TakeSteps(w: World, base: seq<Message>, input: Input, ghost f: Stepper) returns (e: Ending)
      requires log == [] && Steps(f, w, input)
      modifies this
      ensures e == RunWith(f, w, 0, 1, base, []) && log == e.acts
    {
      ghost var all := RunWith(f, w, 0, 1, base, []);
      var working, texts := base, [];
      assert [] + all.acts == all.acts;
      for step := 1 to MAX_STEPS + 1
        invariant Underway(all, log, f, w, step, working, texts)
      {
        var next := GoOn(w, step, working, texts, input, f, all);
        if next.Over? { return next.end.(acts := log); }
        working, texts := next.working, next.texts;
      }
      e := Ending(log, FallBack(w, |log|, texts), texts, None);
      UnderwayEnds(all, log, f, w, working, texts);
    }

    /**
     * One run, which its world decides. At most two completions per planner step and two for the reply, each paid for; every
     * planner request extends the ones before it, and keeps tool calls and results grouped if the history does.
     */
    method Run(w: World, prompt: Message, history: seq<Message>, input: Input) returns (e: Ending)
      requires prompt.System?
      modifies this
      ensures e == RunOf(w, [prompt] + history, input) && log == e.acts
      ensures Paid(log, input.reserving) && Completions(log, Planner) <= 8
      ensures Completions(log, Replyer) <= if input.expecting then 2 else 1
      ensures exists working :: Growing(log, [prompt] + history, working)
      ensures RepliesTo(log, input.replyMessages) && Justified(e)
    {
      log := [];
      RunExactly(w, [prompt] + history, input);
      RunIsWell(w, [prompt] + history, input);
      e := TakeSteps(w, [prompt] + history, input, StepperOf(w, input));
      ghost var end :| WellRun(e, MAX_STEPS, [prompt] + history, end, input);
    }
  }

  /** `all` is what was done and then the steps from this one on. */
  ghost predicate Underway(all: Ending, log: seq<Act>, f: Stepper, w: World, step: nat, working: seq<Message>, texts: seq<string>) {
    all == Following(log, RunWith(f, w, |log|, step, working, texts))
  }

  lemma FollowingOn(a: seq<Act>, b: seq<Act>, e: Ending)
    ensures Following(a, Following(b, e)) == Following(a + b, e)
  {
    assert a + (b + e.acts) == a + b + e.acts;
  }

  lemma UnderwayOn(all: Ending, so: seq<Act>, log: seq<Act>, f: Stepper, w: World, step: nat, working: seq<Message>, texts: seq<string>,
                   next: Turning)
    requires Underway(all, so, f, w, step, working, texts) && step <= MAX_STEPS
    requires next == f(|so|, step, working, texts) && log == so + ActsOf(next)
    ensures next.Over? ==> all == next.end.(acts := log)
    ensures next.On? ==> Underway(all, log, f, w, step + 1, next.working, next.texts)
  {
    if next.On? {
      assert |so| + |next.acts| == |log|;
      FollowingOn(so, next.acts, RunWith(f, w, |log|, step + 1, next.working, next.texts));
    }
  }

  lemma UnderwayEnds(all: Ending, log: seq<Act>, f: Stepper, w: World, working: seq<Message>, texts: seq<string>)
    requires Underway(all, log, f, w, MAX_STEPS + 1, working, texts)
    ensures all == Ending(log, FallBack(w, |log|, texts), texts, None)
  {
    assert log + [] == log;
  }

  lemma StepIs(w: World, t: nat, step: nat, working: seq<Message>, texts: seq<string>, input: Input, acts: seq<Act>, plan: Plan,
               next: Turning, f: Stepper)
    requires Steps(f, w, input)
    requires (acts, plan) == PlanOf(w, t, step, working, input.reserving)
    requires next == Continue(w, t + |acts|, step, working, texts, input, plan)
    ensures f(t, step, working, texts) == WithActs(acts + ActsOf(next), next)
  {
    assert TakeStep(w, t, step, working, texts, input) == After(acts, next);
  }

  /** `all` is what was done and then what is left. */
  ghost predicate Pending(all: Tooled, done: seq<Act>, w: World, u: nat, left: seq<Call>, grown: seq<Message>, said: seq<string>, direct: bool) {
    all == Behind(done, ToolsFrom(w, u, left, grown, said, direct))
  }

  /** What becomes of the next call, behind what was done before it. */
  lemma ToolEnds(w: World, u: nat, left: seq<Call>, grown: seq<Message>, said: seq<string>, direct: bool, done: seq<Act>)
    requires left != []
    ensures var all := Behind(done, ToolsFrom(w, u, left, grown, said, direct));
      var ran, texts, now := Ran(left[0], w.tool(u)), Said(said, w.tool(u)), direct || SpeaksDirectly(w, u);
      if w.before(u) then all == Tooled(done + [HookFailed], grown, said, direct, Some(Failed))
      else if w.after(u) then all == Tooled(done + [ran, HookFailed], grown, texts, now, Some(FallBack(w, u + 2, texts)))
      else if w.tool(u).interrupted then all == Tooled(done + [ran], grown, texts, now, Some(Failed))
      else all == Behind(done, Behind([ran], ToolsFrom(w, u + 1, left[1..], grown + [Tool(left[0].id, w.tool(u).projection)], texts, now)))
  {
    if Fine(w, u) { OneTool(w, u, left, grown, said, direct); }
  }

  lemma BehindBehind(a: seq<Act>, b: seq<Act>, x: Tooled)
    ensures Behind(a, Behind(b, x)) == Behind(a + b, x)
  {
  }

  /** One id that cannot be made leaves no calls. */
  lemma NoCallsWithout(w: World, t: nat, requests: seq<ToolRequest>, i: nat)
    requires i < |requests| && w.id(t, i).None?
    ensures CallsFor(w, t, requests).None?
  {
    CallsForExactly(w, t, requests);
  }

  /** With a history free of tools, every planner request has its one alternating form, with results right behind their uses. */
  lemma PlannerRequestsConvert(
      log: seq<Act>, prompt: Message, history: seq<Message>, working: seq<Message>, reserving: bool, i: nat, images: seq<string>)
    requires Paid(log, reserving) && Growing(log, [prompt] + history, working)
    requires prompt.System? && ToolFree(history) && i < |log| && PlannerCall(log[i])
    ensures var messages := MessagesOf(log[i]);
      && AllConvertible(messages) && Grouped(messages)
      && var ws := MergeAll(Turns(messages, LastUser(messages), images));
         Alternating(ws) && Filled(ws) && Paired(ws) && Blocks(ws) == MessageBlocks(messages, LastUser(messages), images)
  {
    var messages := MessagesOf(log[i]);
    assert PaidAt(log, i, reserving);
    ToolFreeIsGrouped([prompt] + history);
    ValidConverts(messages);
    WireFormIsExact(messages, images, MergeAll(Turns(messages, LastUser(messages), images)));
    GroupedBecomesPaired(messages, images);
  }
}
