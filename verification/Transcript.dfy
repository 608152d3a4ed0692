/** Chat messages, what a model request demands of them, and tool calls grouped with their results (model.go, agent.go). */
module Transcript {
  import opened Common

  const MAX_MESSAGES := 128
  const MAX_CALLS := 6
  const MAX_CALL_ID := 128

  /** Only text of an object is acceptable; `encoded` is that object decoded and encoded anew. */
  datatype Arguments = ObjectText(text: string, encoded: string) | OtherText(text: string)

  datatype Call = Call(id: string, name: string, arguments: Arguments)

  datatype Message =
    | System(content: string)
    | User(content: string)
    | Assistant(content: string, calls: seq<Call>)
    | Tool(callID: string, content: string)
    | OtherRole(role: string, content: string)

  predicate ValidCallID(id: string) {
    0 < |id| <= MAX_CALL_ID && forall i :: 0 <= i < |id| ==> '!' <= id[i] <= '~'
  }

  predicate ValidCalls(calls: seq<Call>) {
    && |calls| <= MAX_CALLS
    && (forall i :: 0 <= i < |calls| ==> ValidCallID(calls[i].id) && calls[i].arguments.ObjectText?)
    && (forall i, j :: 0 <= i < j < |calls| ==> calls[i].id != calls[j].id)
  }

  predicate ValidMessage(m: Message) {
    match m
    case System(content) => !Blank(content)
    case User(content) => !Blank(content)
    case Assistant(content, calls) => (!Blank(content) || calls != []) && ValidCalls(calls)
    case Tool(id, content) => !Blank(content) && ValidCallID(id)
    case OtherRole(_, _) => false
  }

  predicate ValidRequest(messages: seq<Message>) {
    0 < |messages| <= MAX_MESSAGES && forall i :: 0 <= i < |messages| ==> ValidMessage(messages[i])
  }

  /** A request is refused exactly when it is empty or too long, or for one of these in a message. */
  lemma RequestsRefusedExactly(messages: seq<Message>)
    ensures !ValidRequest(messages) <==>
      messages == [] || |messages| > 128 || exists i :: 0 <= i < |messages| && !ValidMessage(messages[i])
    ensures forall m: Message :: !ValidMessage(m) <==>
      || m.OtherRole?
      || (Blank(m.content) && !(m.Assistant? && m.calls != []))
      || (m.Tool? && !ValidCallID(m.callID))
      || (m.Assistant? &&
           (|m.calls| > 6
            || (exists i :: 0 <= i < |m.calls| && (!ValidCallID(m.calls[i].id) || m.calls[i].arguments.OtherText?))
            || (exists i, j :: 0 <= i < j < |m.calls| && m.calls[i].id == m.calls[j].id)))
  {
  }

  // ---- Groups ----

  predicate CallsTools(m: Message) { m.Assistant? && m.calls != [] }

  /** One result per call, with the same ids in the same order. */
  predicate Answers(results: seq<Message>, calls: seq<Call>) {
    |results| == |calls| && forall i :: 0 <= i < |calls| ==> results[i].Tool? && results[i].callID == calls[i].id
  }

  predicate ToolFree(messages: seq<Message>) {
    forall i :: 0 <= i < |messages| ==> !messages[i].Tool? && !CallsTools(messages[i])
  }

  /** Each message that calls tools stands right before the results of just its calls; there are no other results. */
  predicate Grouped(messages: seq<Message>)
    decreases |messages|
  {
    if messages == [] then true
    else if CallsTools(messages[0]) then
      var n := |messages[0].calls|;
      n < |messages| && Answers(messages[1..n + 1], messages[0].calls) && Grouped(messages[n + 1..])
    else !messages[0].Tool? && Grouped(messages[1..])
  }

  lemma {:induction false} ToolFreeIsGrouped(messages: seq<Message>)
    requires ToolFree(messages)
    ensures Grouped(messages)
    decreases |messages|
  {
    if messages != [] { ToolFreeIsGrouped(messages[1..]); }
  }

  lemma {:induction false} GroupedConcat(a: seq<Message>, b: seq<Message>)
    requires Grouped(a) && Grouped(b)
    ensures Grouped(a + b)
    decreases |a|
  {
    if a == [] {
      assert a + b == b;
    } else {
      var n := if CallsTools(a[0]) then |a[0].calls| else 0;
      GroupedConcat(a[n + 1..], b);
      assert (a + b)[n + 1..] == a[n + 1..] + b;
      assert (a + b)[1..n + 1] == a[1..n + 1];
    }
  }

  /** What Grouped says about any one position. */
  lemma {:induction false} GroupedAt(messages: seq<Message>, i: nat)
    requires Grouped(messages) && i < |messages| && CallsTools(messages[i])
    ensures i + |messages[i].calls| < |messages|
    ensures Answers(messages[i + 1..i + 1 + |messages[i].calls|], messages[i].calls)
    decreases |messages|
  {
    var n := if CallsTools(messages[0]) then |messages[0].calls| else 0;
    if i > 0 {
      GroupedAt(messages[n + 1..], i - n - 1);
      SliceOfTail(messages, n + 1, i - n, i - n + |messages[i].calls|);
    }
  }

  lemma SliceOfTail<T>(s: seq<T>, d: nat, i: nat, k: nat)
    requires d <= |s| && i <= k <= |s| - d
    ensures s[d..][i..k] == s[d + i..d + k]
  {
  }
}
