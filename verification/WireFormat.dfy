/** The alternating-role wire format that a request's messages are converted to (model_anthropic.go). */
module WireFormat {
  import opened Common
  import opened Transcript

  datatype Role = FromUser | FromAssistant

  datatype Block =
    | TextBlock(text: string)
    | ImageBlock(data: string)
    | ToolUse(id: string, name: string, input: string)
    | ToolResult(callID: string, content: string)

  datatype Wire = Wire(role: Role, content: seq<Block>)

  // ---- One message ----

  function ImageBlocks(images: seq<string>): seq<Block> { seq(|images|, i requires 0 <= i < |images| => ImageBlock(images[i])) }

  predicate AllObjects(calls: seq<Call>) { forall i :: 0 <= i < |calls| ==> calls[i].arguments.ObjectText? }

  function UseBlocks(calls: seq<Call>): seq<Block>
    requires AllObjects(calls)
  {
    seq(|calls|, i requires 0 <= i < |calls| => ToolUse(calls[i].id, calls[i].name, calls[i].arguments.encoded))
  }

  /** The role and the blocks of one message that is not a system message. */
  function Turn(m: Message, images: seq<string>): Wire
    requires !m.System? && Convertible(m)
  {
    match m
    case User(content) => Wire(FromUser, [TextBlock(content)] + ImageBlocks(images))
    case Assistant(content, calls) => Wire(FromAssistant, (if Blank(content) then [] else [TextBlock(content)]) + UseBlocks(calls))
    case Tool(id, content) => Wire(FromUser, [ToolResult(id, content)])
  }

  predicate Convertible(m: Message) {
    !m.OtherRole? && (m.Assistant? ==> AllObjects(m.calls))
  }

  /** The position of the last user message; -1 without one. */
  function LastUser(messages: seq<Message>): int
    decreases |messages|
  {
    if messages == [] then -1
    else if messages[|messages| - 1].User? then |messages| - 1
    else LastUser(messages[..|messages| - 1])
  }

  /** The turns of the messages, where the user message at position `last` carries the images. */
  function Turns(messages: seq<Message>, last: int, images: seq<string>): seq<Wire>
    requires forall i :: 0 <= i < |messages| ==> Convertible(messages[i])
    decreases |messages|
  {
    if messages == [] then [] else
      var n := |messages| - 1;
      assert Convertible(messages[n]);
      var rest := Turns(messages[..n], last, images);
      if messages[n].System? then rest else rest + [Turn(messages[n], if n == last then images else [])]
  }

  function SystemParts(messages: seq<Message>): seq<string>
    decreases |messages|
  {
    if messages == [] then [] else
      var n := |messages| - 1;
      SystemParts(messages[..n]) + if messages[n].System? then [messages[n].content] else []
  }

  // ---- Merging ----

  function Merge(ws: seq<Wire>, t: Wire): seq<Wire> {
    if ws != [] && ws[|ws| - 1].role == t.role then ws[..|ws| - 1] + [Wire(t.role, ws[|ws| - 1].content + t.content)]
    else ws + [t]
  }

  function MergeAll(ts: seq<Wire>): seq<Wire>
    decreases |ts|
  {
    if ts == [] then [] else Merge(MergeAll(ts[..|ts| - 1]), ts[|ts| - 1])
  }

  function Tagged(t: Wire): seq<(Role, Block)> { seq(|t.content|, i requires 0 <= i < |t.content| => (t.role, t.content[i])) }

  /** All blocks in order, each with its role. */
  function Blocks(ws: seq<Wire>): seq<(Role, Block)>
    decreases |ws|
  {
    if ws == [] then [] else Blocks(ws[..|ws| - 1]) + Tagged(ws[|ws| - 1])
  }

  predicate Alternating(ws: seq<Wire>) { forall i :: 0 <= i < |ws| - 1 ==> ws[i].role != ws[i + 1].role }

  predicate Filled(ws: seq<Wire>) { forall i :: 0 <= i < |ws| ==> ws[i].content != [] }

  lemma MergeOne(ws: seq<Wire>, t: Wire)
    requires Alternating(ws)
    ensures Alternating(Merge(ws, t)) && Blocks(Merge(ws, t)) == Blocks(ws) + Tagged(t) && Merge(ws, t) != []
    ensures Filled(ws) && t.content != [] ==> Filled(Merge(ws, t))
  {
    var m := Merge(ws, t);
    var n := |m| - 1;
    if |m| == |ws| {
      assert m[..n] == ws[..n];
      assert Tagged(m[n]) == Tagged(ws[n]) + Tagged(t);
    } else {
      assert m[..n] == ws;
    }
  }

  /** Merging keeps every block, in order and with its role, and never leaves two neighbours with the same role. */
  lemma {:induction false} MergeAllKeepsBlocks(ts: seq<Wire>)
    ensures Blocks(MergeAll(ts)) == Blocks(ts) && Alternating(MergeAll(ts))
    ensures Filled(ts) ==> Filled(MergeAll(ts))
    ensures ts != [] ==> MergeAll(ts) != []
    decreases |ts|
  {
    if ts != [] {
      MergeAllKeepsBlocks(ts[..|ts| - 1]);
      MergeOne(MergeAll(ts[..|ts| - 1]), ts[|ts| - 1]);
    }
  }

  /** There is only one alternating form without empty messages for the same blocks. */
  lemma {:induction false} AlternatingFormIsUnique(a: seq<Wire>, b: seq<Wire>)
    requires Alternating(a) && Filled(a) && Alternating(b) && Filled(b) && Blocks(a) == Blocks(b)
    ensures a == b
    decreases |a|
  {
    if a != [] && b != [] {
      LastRun(a, b);
      LastRun(b, a);
      var m, n := |a| - 1, |b| - 1;
      var k := |a[m].content|;
      assert k == |b[n].content|;
      var all := Blocks(a);
      assert all[|all| - k..] == Tagged(a[m]) && all[|all| - k..] == Tagged(b[n]);
      assert all[..|all| - k] == Blocks(a[..m]) && all[..|all| - k] == Blocks(b[..n]);
      SameTags(a[m], b[n]);
      AlternatingFormIsUnique(a[..m], b[..n]);
      assert a == a[..m] + [a[m]] && b == b[..n] + [b[n]];
    }
  }

  lemma SameTags(s: Wire, t: Wire)
    requires s.content != [] && Tagged(s) == Tagged(t)
    ensures s == t
  {
    assert Tagged(s)[0] == Tagged(t)[0];
    forall i | 0 <= i < |s.content| ensures s.content[i] == t.content[i] { assert Tagged(s)[i] == Tagged(t)[i]; }
    assert |Tagged(s)| == |Tagged(t)|;
  }

  /** The last message of one form is at least as long as that of the other. */
  lemma LastRun(a: seq<Wire>, b: seq<Wire>)
    requires a != [] && b != [] && Alternating(a) && Filled(a) && Filled(b) && Blocks(a) == Blocks(b)
    ensures |a[|a| - 1].content| >= |b[|b| - 1].content|
  {
    var m, n := |a| - 1, |b| - 1;
    var j, k := |a[m].content|, |b[n].content|;
    var all := Blocks(a);
    assert all == Blocks(a[..m]) + Tagged(a[m]) && all == Blocks(b[..n]) + Tagged(b[n]);
    assert all[|all| - 1] == Tagged(a[m])[j - 1] && all[|all| - 1] == Tagged(b[n])[k - 1];
    assert a[m].role == b[n].role;
    if m > 0 {
      assert a[..m][..m - 1] == a[..m - 1];
      assert Blocks(a[..m]) == Blocks(a[..m - 1]) + Tagged(a[m - 1]);
      assert all[|all| - j - 1] == Tagged(a[m - 1])[|a[m - 1].content| - 1];
    }
  }

  // ---- The conversion ----

  predicate AllConvertible(messages: seq<Message>) { forall i :: 0 <= i < |messages| ==> Convertible(messages[i]) }

  predicate AllSystem(messages: seq<Message>) { forall i :: 0 <= i < |messages| ==> messages[i].System? }

  lemma {:induction false} LastUserIs(messages: seq<Message>)
    ensures var k := LastUser(messages);
      -1 <= k < |messages| && (k >= 0 ==> messages[k].User?) && forall i :: k < i < |messages| ==> !messages[i].User?
    decreases |messages|
  {
    if messages != [] { LastUserIs(messages[..|messages| - 1]); }
  }

  lemma OneMoreUse(calls: seq<Call>, k: nat)
    requires k < |calls| && AllObjects(calls[..k]) && calls[k].arguments.ObjectText?
    ensures AllObjects(calls[..k + 1])
    ensures UseBlocks(calls[..k + 1])
      == UseBlocks(calls[..k]) + [ToolUse(calls[k].id, calls[k].name, calls[k].arguments.encoded)]
  {
    assert calls[..k + 1] == calls[..k] + [calls[k]];
  }

  /** One message's turn; None for an unknown role or for arguments that are no object. */
  method ConvertOne(m: Message, images: seq<string>) returns (t: Option<Wire>)
    requires !m.System?
    ensures t.Some? <==> Convertible(m)
    ensures t.Some? ==> t.value == Turn(m, images)
  {
    match m {
      case User(content) => t := Some(Wire(FromUser, [TextBlock(content)] + ImageBlocks(images)));
      case Tool(id, content) => t := Some(Wire(FromUser, [ToolResult(id, content)]));
      case OtherRole(_, _) => t := None;
      case Assistant(content, calls) =>
        var blocks: seq<Block> := if Blank(content) then [] else [TextBlock(content)];
        ghost var head := blocks;
        for k := 0 to |calls|
          invariant AllObjects(calls[..k])
          invariant blocks == head + UseBlocks(calls[..k])
        {
          if calls[k].arguments.OtherText? {
            assert !AllObjects(calls);
            return None;
          }
          OneMoreUse(calls, k);
          blocks := blocks + [ToolUse(calls[k].id, calls[k].name, calls[k].arguments.encoded)];
        }
        assert calls[..|calls|] == calls;
        t := Some(Wire(FromAssistant, blocks));
    }
  }

  /** What one message becomes: its text, then for a user the images, for an assistant the tool uses; a result is the user's. */
  lemma TurnExactly(m: Message, images: seq<string>)
    requires !m.System? && Convertible(m)
    ensures var t := Turn(m, images);
      match m
      case User(content) =>
        && t.role == FromUser && |t.content| == 1 + |images| && t.content[0] == TextBlock(content)
        && forall i :: 0 <= i < |images| ==> t.content[i + 1] == ImageBlock(images[i])
      case Tool(id, content) => t.role == FromUser && t.content == [ToolResult(id, content)]
      case Assistant(content, calls) =>
        var texts := if Blank(content) then 0 else 1;
        && t.role == FromAssistant && |t.content| == texts + |calls| && (texts == 1 ==> t.content[0] == TextBlock(content))
        && forall i :: 0 <= i < |calls| && calls[i].arguments.ObjectText? ==>
             t.content[texts + i] == ToolUse(calls[i].id, calls[i].name, calls[i].arguments.encoded)
  {
  }

  /** The system texts are those of the system messages, in order; no other message adds one. */
  lemma SystemPartsExactly(messages: seq<Message>, m: Message)
    ensures SystemParts([]) == []
    ensures SystemParts(messages + [m]) == SystemParts(messages) + if m.System? then [m.content] else []
  {
    assert (messages + [m])[..|messages|] == messages;
  }

  lemma TurnsOfOneMore(messages: seq<Message>, n: nat, last: int, images: seq<string>)
    requires n < |messages| && AllConvertible(messages[..n])
    ensures AllConvertible(messages[..n + 1]) <==> Convertible(messages[n])
    ensures SystemParts(messages[..n + 1]) ==
      SystemParts(messages[..n]) + if messages[n].System? then [messages[n].content] else []
    ensures AllConvertible(messages[..n + 1]) ==>
      var so, now := Turns(messages[..n], last, images), Turns(messages[..n + 1], last, images);
      if messages[n].System? then now == so
      else MergeAll(now) == Merge(MergeAll(so), Turn(messages[n], if n == last then images else []))
  {
    var so, now := messages[..n], messages[..n + 1];
    assert now[..n] == so && now[n] == messages[n];
    if Convertible(messages[n]) && !messages[n].System? {
      var ts, t := Turns(so, last, images), Turn(messages[n], if n == last then images else []);
      assert Turns(now, last, images) == ts + [t];
      assert (ts + [t])[..|ts|] == ts;
    }
  }

  /** Fails exactly for an unknown role, for arguments that are no object, or when all messages are system messages. */
  method AnthropicMessages(messages: seq<Message>, images: seq<string>) returns (system: seq<string>, r: Option<seq<Wire>>)
    ensures r.Some? <==> AllConvertible(messages) && !AllSystem(messages)
    ensures r.Some? ==> system == SystemParts(messages)
    ensures r.Some? ==> r.value == MergeAll(Turns(messages, LastUser(messages), images))
  {
    system := [];
    var last := FindLastUser(messages);
    var wires: seq<Wire> := [];
    for index := 0 to |messages|
      invariant AllConvertible(messages[..index])
      invariant system == SystemParts(messages[..index])
      invariant wires == MergeAll(Turns(messages[..index], last, images))
      invariant wires == [] <==> forall i :: 0 <= i < index ==> messages[i].System?
    {
      TurnsOfOneMore(messages, index, last, images);
      if messages[index].System? {
        system := system + [messages[index].content];
      } else {
        var t := ConvertOne(messages[index], if index == last then images else []);
        if t.None? { return system, None; }
        wires := Merge(wires, t.value);
      }
    }
    assert messages[..|messages|] == messages;
    r := if wires == [] then None else Some(wires);
  }

  method FindLastUser(messages: seq<Message>) returns (last: int)
    ensures last == LastUser(messages)
  {
    last := -1;
    for index := 0 to |messages|
      invariant last == LastUser(messages[..index])
    {
      assert messages[..index + 1][..index] == messages[..index];
      if messages[index].User? { last := index; }
    }
    assert messages[..|messages|] == messages;
  }

  // ---- What the conversion keeps ----

  /** The blocks of the messages one after the other, with the images behind the text of the last user message. */
  function MessageBlocks(messages: seq<Message>, last: int, images: seq<string>): seq<(Role, Block)>
    requires AllConvertible(messages)
    decreases |messages|
  {
    if messages == [] then [] else
      var n := |messages| - 1;
      MessageBlocks(messages[..n], last, images) +
      if messages[n].System? then [] else Tagged(Turn(messages[n], if n == last then images else []))
  }

  lemma {:induction false} TurnsHoldTheBlocks(messages: seq<Message>, last: int, images: seq<string>)
    requires AllConvertible(messages)
    ensures Blocks(Turns(messages, last, images)) == MessageBlocks(messages, last, images)
    decreases |messages|
  {
    if messages != [] {
      var n := |messages| - 1;
      TurnsHoldTheBlocks(messages[..n], last, images);
      if !messages[n].System? {
        var before := Turns(messages[..n], last, images);
        assert Turns(messages, last, images)[..|before|] == before;
      }
    }
  }

  lemma {:induction false} TurnsAreFilled(messages: seq<Message>, last: int, images: seq<string>)
    requires AllConvertible(messages) && forall i :: 0 <= i < |messages| ==> ValidMessage(messages[i])
    ensures Filled(Turns(messages, last, images))
    decreases |messages|
  {
    if messages != [] {
      var n := |messages| - 1;
      TurnsAreFilled(messages[..n], last, images);
      assert ValidMessage(messages[n]);
    }
  }

  lemma ValidConverts(messages: seq<Message>)
    requires ValidRequest(messages)
    ensures AllConvertible(messages)
  {
  }

  /** The wire form of a valid request is the one alternating form of its blocks. */
  lemma WireFormIsExact(messages: seq<Message>, images: seq<string>, ws: seq<Wire>)
    requires ValidRequest(messages)
    ensures AllConvertible(messages)
    ensures ws == MergeAll(Turns(messages, LastUser(messages), images)) <==>
      Alternating(ws) && Filled(ws) && Blocks(ws) == MessageBlocks(messages, LastUser(messages), images)
  {
    ValidConverts(messages);
    var ts := Turns(messages, LastUser(messages), images);
    TurnsHoldTheBlocks(messages, LastUser(messages), images);
    TurnsAreFilled(messages, LastUser(messages), images);
    MergeAllKeepsBlocks(ts);
    if Alternating(ws) && Filled(ws) && Blocks(ws) == Blocks(ts) { AlternatingFormIsUnique(ws, MergeAll(ts)); }
  }

  /** The images among blocks, in order. */
  function Images(bs: seq<(Role, Block)>): seq<string>
    decreases |bs|
  {
    if bs == [] then [] else
      Images(bs[..|bs| - 1]) + if bs[|bs| - 1].1.ImageBlock? then [bs[|bs| - 1].1.data] else []
  }

  lemma {:induction false} ImagesConcat(a: seq<(Role, Block)>, b: seq<(Role, Block)>)
    ensures Images(a + b) == Images(a) + Images(b)
    decreases |b|
  {
    if b == [] {
      assert a + b == a;
    } else {
      ImagesConcat(a, b[..|b| - 1]);
      assert (a + b)[..|a + b| - 1] == a + b[..|b| - 1];
    }
  }

  lemma {:induction false} NoImages(bs: seq<(Role, Block)>)
    requires forall i :: 0 <= i < |bs| ==> !bs[i].1.ImageBlock?
    ensures Images(bs) == []
    decreases |bs|
  {
    if bs != [] { NoImages(bs[..|bs| - 1]); }
  }

  lemma {:induction false} OnlyImages(images: seq<string>)
    ensures Images(Tagged(Wire(FromUser, ImageBlocks(images)))) == images
    decreases |images|
  {
    if images != [] {
      var n := |images| - 1;
      OnlyImages(images[..n]);
      var bs := Tagged(Wire(FromUser, ImageBlocks(images)));
      assert bs[..n] == Tagged(Wire(FromUser, ImageBlocks(images[..n])));
    }
  }

  lemma TurnImages(m: Message, images: seq<string>)
    requires !m.System? && Convertible(m)
    ensures Images(Tagged(Turn(m, images))) == if m.User? then images else []
  {
    if m.User? {
      var head := Tagged(Wire(FromUser, [TextBlock(m.content)]));
      assert Tagged(Turn(m, images)) == head + Tagged(Wire(FromUser, ImageBlocks(images)));
      NoImages(head);
      ImagesConcat(head, Tagged(Wire(FromUser, ImageBlocks(images))));
      OnlyImages(images);
    } else {
      NoImages(Tagged(Turn(m, images)));
    }
  }

  /** The images come exactly once, with the message at `last`, and nowhere else. */
  lemma {:induction false} ImagesComeOnce(messages: seq<Message>, last: int, images: seq<string>)
    requires AllConvertible(messages) && (0 <= last < |messages| ==> messages[last].User?)
    ensures Images(MessageBlocks(messages, last, images)) == if 0 <= last < |messages| then images else []
    decreases |messages|
  {
    if messages != [] {
      var n := |messages| - 1;
      ImagesComeOnce(messages[..n], last, images);
      var here := if messages[n].System? then [] else Tagged(Turn(messages[n], if n == last then images else []));
      if !messages[n].System? { TurnImages(messages[n], if n == last then images else []); }
      ImagesConcat(MessageBlocks(messages[..n], last, images), here);
    }
  }

  // ---- Tool uses and their results stay together ----

  predicate UsesTools(w: Wire) { exists i :: 0 <= i < |w.content| && w.content[i].ToolUse? }

  /** The ids of the tool uses among blocks, in order. */
  function UseIDs(bs: seq<Block>): seq<string>
    decreases |bs|
  {
    if bs == [] then [] else
      UseIDs(bs[..|bs| - 1]) + if bs[|bs| - 1].ToolUse? then [bs[|bs| - 1].id] else []
  }

  predicate StartsWithResults(w: Wire, ids: seq<string>) {
    w.role == FromUser && |ids| <= |w.content|
    && forall i :: 0 <= i < |ids| ==> w.content[i].ToolResult? && w.content[i].callID == ids[i]
  }

  /** Right after the message at `k` come the results of its tool uses, in order and before anything else. */
  predicate AnsweredAt(ws: seq<Wire>, k: nat)
    requires k < |ws|
  {
    UsesTools(ws[k]) ==> ws[k].role == FromAssistant && k + 1 < |ws| && StartsWithResults(ws[k + 1], UseIDs(ws[k].content))
  }

  predicate Paired(ws: seq<Wire>) { forall k :: 0 <= k < |ws| ==> AnsweredAt(ws, k) }

  /** Adding a turn without tool uses keeps tool uses and results together. */
  lemma MergePlain(ws: seq<Wire>, t: Wire)
    requires Paired(ws) && !UsesTools(t)
    ensures Paired(Merge(ws, t))
  {
    var m := Merge(ws, t);
    forall k | 0 <= k < |m| ensures AnsweredAt(m, k) {
      if k < |ws| { assert AnsweredAt(ws, k); }
    }
  }

  lemma {:induction false} UseIDsConcat(a: seq<Block>, b: seq<Block>)
    ensures UseIDs(a + b) == UseIDs(a) + UseIDs(b)
    decreases |b|
  {
    if b == [] {
      assert a + b == a;
    } else {
      UseIDsConcat(a, b[..|b| - 1]);
      assert (a + b)[..|a + b| - 1] == a + b[..|b| - 1];
    }
  }

  lemma {:induction false} UseIDsOfCalls(calls: seq<Call>)
    requires AllObjects(calls)
    ensures UseIDs(UseBlocks(calls)) == seq(|calls|, i requires 0 <= i < |calls| => calls[i].id)
    decreases |calls|
  {
    if calls != [] {
      var n := |calls| - 1;
      UseIDsOfCalls(calls[..n]);
      assert UseBlocks(calls)[..n] == UseBlocks(calls[..n]);
    }
  }

  lemma {:induction false} NoUseIDs(bs: seq<Block>)
    requires forall i :: 0 <= i < |bs| ==> !bs[i].ToolUse?
    ensures UseIDs(bs) == []
    decreases |bs|
  {
    if bs != [] { NoUseIDs(bs[..|bs| - 1]); }
  }

  /** All but the last message are answered, and the last one's tool uses have exactly the ids `ids`. */
  predicate Awaits(ws: seq<Wire>, ids: seq<string>) {
    && ws != [] && ws[|ws| - 1].role == FromAssistant && UseIDs(ws[|ws| - 1].content) == ids
    && forall k :: 0 <= k < |ws| - 1 ==> AnsweredAt(ws, k)
  }

  ghost function CallIDs(calls: seq<Call>): seq<string> { seq(|calls|, i requires 0 <= i < |calls| => calls[i].id) }

  lemma TurnUses(m: Message)
    requires m.Assistant? && Convertible(m)
    ensures UseIDs(Turn(m, []).content) == CallIDs(m.calls)
  {
    var head: seq<Block> := if Blank(m.content) then [] else [TextBlock(m.content)];
    NoUseIDs(head);
    UseIDsConcat(head, UseBlocks(m.calls));
    UseIDsOfCalls(m.calls);
  }

  /** An assistant's turn, merged or not, awaits the results of its own calls. */
  lemma CallsAwait(ws: seq<Wire>, m: Message)
    requires Paired(ws) && m.Assistant? && Convertible(m)
    ensures Awaits(Merge(ws, Turn(m, [])), CallIDs(m.calls))
  {
    var t := Turn(m, []);
    var r := Merge(ws, t);
    TurnUses(m);
    if |r| == |ws| {
      var last := ws[|ws| - 1];
      assert AnsweredAt(ws, |ws| - 1);
      NoUseIDs(last.content);
      UseIDsConcat(last.content, t.content);
    }
    forall k | 0 <= k < |r| - 1 ensures AnsweredAt(r, k) {
      AnsweredBefore(ws, r, k);
    }
  }

  lemma AnsweredBefore(ws: seq<Wire>, r: seq<Wire>, k: nat)
    requires Paired(ws) && k + 1 < |r| && k < |ws| && ws[k] == r[k]
    requires k + 1 < |ws| ==> ws[k + 1] == r[k + 1] || ws[k + 1].role == FromAssistant
    ensures AnsweredAt(r, k)
  {
    assert AnsweredAt(ws, k);
  }

  /** The first `j` results have arrived behind the message that awaits them. */
  predicate Filling(ws: seq<Wire>, ids: seq<string>, j: nat)
    requires j <= |ids|
  {
    if j == 0 then Awaits(ws, ids) else
      && |ws| >= 2 && Awaits(ws[..|ws| - 1], ids) && ws[|ws| - 1].role == FromUser
      && |ws[|ws| - 1].content| == j && StartsWithResults(ws[|ws| - 1], ids[..j])
  }

  lemma FillOne(ws: seq<Wire>, ids: seq<string>, j: nat, m: Message)
    requires j < |ids| && Filling(ws, ids, j) && m.Tool? && m.callID == ids[j]
    ensures Filling(Merge(ws, Turn(m, [])), ids, j + 1)
  {
  }

  lemma FilledIsPaired(ws: seq<Wire>, ids: seq<string>)
    requires ids != [] && Filling(ws, ids, |ids|)
    ensures Paired(ws)
  {
    var n := |ws| - 1;
    var init := ws[..n];
    assert ids[..|ids|] == ids;
    forall k | 0 <= k < |ws| ensures AnsweredAt(ws, k) {
      if k < n - 1 { assert AnsweredAt(init, k); }
      else if k == n {
        assert forall i :: 0 <= i < |ids| ==> ws[n].content[i].ToolResult?;
      } else { assert ws[k] == init[n - 1]; }
    }
  }

  /** The wire form of the first `n` messages. */
  ghost function WireOf(messages: seq<Message>, n: nat, last: int, images: seq<string>): seq<Wire>
    requires n <= |messages| && AllConvertible(messages)
  {
    MergeAll(Turns(messages[..n], last, images))
  }

  lemma WireOfOneMore(messages: seq<Message>, n: nat, last: int, images: seq<string>)
    requires n < |messages| && AllConvertible(messages)
    ensures WireOf(messages, n + 1, last, images) ==
      if messages[n].System? then WireOf(messages, n, last, images)
      else Merge(WireOf(messages, n, last, images), Turn(messages[n], if n == last && messages[n].User? then images else []))
  {
    TurnsOfOneMore(messages, n, last, images);
  }

  /** Result number `k` of the calls at `i` stands in its place. */
  predicate IsResult(messages: seq<Message>, i: nat, k: nat) {
    && i + 1 + k < |messages| && messages[i].Assistant? && k < |messages[i].calls|
    && messages[i + 1 + k].Tool? && messages[i + 1 + k].callID == messages[i].calls[k].id
  }

  ghost predicate FilledTo(messages: seq<Message>, i: nat, j: nat, last: int, images: seq<string>)
    requires AllConvertible(messages) && i < |messages| && messages[i].Assistant?
    requires j <= |messages[i].calls| && i + j < |messages|
  {
    Filling(WireOf(messages, i + 1 + j, last, images), CallIDs(messages[i].calls), j)
  }

  lemma {:induction false} ResultsFill(messages: seq<Message>, i: nat, j: nat, last: int, images: seq<string>)
    requires AllConvertible(messages) && i < |messages| && messages[i].Assistant?
    requires j <= |messages[i].calls| && i + j < |messages|
    requires forall k :: 0 <= k < j ==> IsResult(messages, i, k)
    requires Paired(WireOf(messages, i, last, images))
    ensures FilledTo(messages, i, j, last, images)
    decreases j
  {
    if j == 0 {
      WireOfOneMore(messages, i, last, images);
      CallsAwait(WireOf(messages, i, last, images), messages[i]);
    } else {
      ResultsFill(messages, i, j - 1, last, images);
      FillStep(messages, i, j - 1, j, last, images);
    }
  }

  lemma FillStep(messages: seq<Message>, i: nat, j: nat, next: nat, last: int, images: seq<string>)
    requires AllConvertible(messages) && IsResult(messages, i, j) && next == j + 1
    requires FilledTo(messages, i, j, last, images)
    ensures FilledTo(messages, i, next, last, images)
  {
    var now, later := WireOf(messages, i + 1 + j, last, images), WireOf(messages, i + 1 + next, last, images);
    assert later == Merge(now, Turn(messages[i + 1 + j], [])) by { WireOfOneMore(messages, i + 1 + j, last, images); }
    FillOne(now, CallIDs(messages[i].calls), j, messages[i + 1 + j]);
  }

  lemma PlainStays(messages: seq<Message>, i: nat, last: int, images: seq<string>)
    requires AllConvertible(messages) && i < |messages| && !CallsTools(messages[i])
    requires Paired(WireOf(messages, i, last, images))
    ensures Paired(WireOf(messages, i + 1, last, images))
  {
    WireOfOneMore(messages, i, last, images);
    if !messages[i].System? {
      MergePlain(WireOf(messages, i, last, images), Turn(messages[i], if i == last && messages[i].User? then images else []));
    }
  }

  lemma GroupStays(messages: seq<Message>, i: nat, last: int, images: seq<string>)
    requires AllConvertible(messages) && i < |messages| && CallsTools(messages[i]) && i + |messages[i].calls| < |messages|
    requires Answers(messages[i + 1..i + 1 + |messages[i].calls|], messages[i].calls)
    requires Paired(WireOf(messages, i, last, images))
    ensures Paired(WireOf(messages, i + 1 + |messages[i].calls|, last, images))
  {
    var n := |messages[i].calls|;
    forall k | 0 <= k < n
      ensures IsResult(messages, i, k)
    {
      assert messages[i + 1 + k] == messages[i + 1..i + 1 + n][k];
    }
    ResultsFill(messages, i, n, last, images);
    assert CallIDs(messages[i].calls) != [];
    FilledIsPaired(WireOf(messages, i + 1 + n, last, images), CallIDs(messages[i].calls));
  }

  lemma {:induction false} PairedFrom(messages: seq<Message>, i: nat, last: int, images: seq<string>)
    requires AllConvertible(messages) && i <= |messages| && Grouped(messages[i..])
    requires Paired(WireOf(messages, i, last, images))
    ensures Paired(WireOf(messages, |messages|, last, images))
    decreases |messages| - i
  {
    if i < |messages| {
      var rest := messages[i..];
      var n := if CallsTools(messages[i]) then |messages[i].calls| else 0;
      if n > 0 {
        assert rest[1..n + 1] == messages[i + 1..i + 1 + n];
        GroupStays(messages, i, last, images);
      } else {
        PlainStays(messages, i, last, images);
      }
      assert rest[n + 1..] == messages[i + n + 1..];
      PairedFrom(messages, i + n + 1, last, images);
    }
  }

  /** From grouped messages comes a wire form in which the results directly follow their tool uses. */
  lemma GroupedBecomesPaired(messages: seq<Message>, images: seq<string>)
    requires AllConvertible(messages) && Grouped(messages)
    ensures Paired(MergeAll(Turns(messages, LastUser(messages), images)))
  {
    assert messages[..|messages|] == messages && messages[0..] == messages;
    PairedFrom(messages, 0, LastUser(messages), images);
  }
}
