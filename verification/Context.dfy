/** Bounded conversation memory: old messages fold into one summary message (context.go). */
module Context {
  import opened Common

  /** The text of a summary is not modelled; that a message is one is. */
  datatype Body = Verbatim(text: string) | SummaryText

  /** Empty ids and a zero time mean that there is none; a count below one stands for one. */
  datatype Message = Message(role: string, body: Body, sourceID: string, sourceEndID: string, sourceCount: int, sourceTimeMS: int)

  function EndID(m: Message): string { if m.sourceEndID == "" then m.sourceID else m.sourceEndID }

  function Weight(m: Message): int { if m.sourceCount < 1 then 1 else m.sourceCount }

  function TotalWeight(ms: seq<Message>): int
    decreases |ms|
  {
    if ms == [] then 0 else TotalWeight(ms[..|ms| - 1]) + Weight(ms[|ms| - 1])
  }

  predicate FirstID(ms: seq<Message>, id: string) {
    if forall i :: 0 <= i < |ms| ==> ms[i].sourceID == "" then id == ""
    else exists i :: 0 <= i < |ms| && ms[i].sourceID == id != "" && forall j :: 0 <= j < i ==> ms[j].sourceID == ""
  }

  predicate LastID(ms: seq<Message>, id: string) {
    if forall i :: 0 <= i < |ms| ==> EndID(ms[i]) == "" then id == ""
    else exists i :: 0 <= i < |ms| && EndID(ms[i]) == id != "" && forall j :: i < j < |ms| ==> EndID(ms[j]) == ""
  }

  predicate FirstTime(ms: seq<Message>, time: int) {
    if forall i :: 0 <= i < |ms| ==> ms[i].sourceTimeMS == 0 then time == 0
    else exists i :: 0 <= i < |ms| && ms[i].sourceTimeMS == time != 0 && forall j :: 0 <= j < i ==> ms[j].sourceTimeMS == 0
  }

  /** The summary message of some messages, one after the other. */
  function Summary(ms: seq<Message>): Message
    decreases |ms|
  {
    if ms == [] then Message("user", SummaryText, "", "", 0, 0) else With(Summary(ms[..|ms| - 1]), ms[|ms| - 1])
  }

  /** A summary that takes in one more message. */
  function With(s: Message, m: Message): Message {
    Message("user", SummaryText,
      if s.sourceID == "" then m.sourceID else s.sourceID,
      if EndID(m) == "" then s.sourceEndID else EndID(m),
      s.sourceCount + Weight(m),
      if s.sourceTimeMS == 0 then m.sourceTimeMS else s.sourceTimeMS)
  }

  lemma SummarySnoc(ms: seq<Message>, m: Message)
    ensures Summary(ms + [m]) == With(Summary(ms), m)
  {
  }

  /** A summary names the first and the last source, the first time, and the weight of all it stands for. */
  lemma SummaryMeans(ms: seq<Message>)
    ensures FirstID(ms, Summary(ms).sourceID) && LastID(ms, Summary(ms).sourceEndID)
    ensures FirstTime(ms, Summary(ms).sourceTimeMS) && Summary(ms).sourceCount == TotalWeight(ms) >= |ms|
  {
    SummaryFirstID(ms);
    SummaryLastID(ms);
    SummaryTimeAndWeight(ms);
  }

  lemma {:induction false} SummaryFirstID(ms: seq<Message>)
    ensures FirstID(ms, Summary(ms).sourceID)
    decreases |ms|
  {
    if ms != [] {
      var n := |ms| - 1;
      SummaryFirstID(ms[..n]);
      FirstIDGrows(ms[..n], ms[n], Summary(ms[..n]).sourceID);
      assert ms[..n] + [ms[n]] == ms;
    }
  }

  lemma {:induction false} SummaryLastID(ms: seq<Message>)
    ensures LastID(ms, Summary(ms).sourceEndID)
    decreases |ms|
  {
    if ms != [] {
      var n := |ms| - 1;
      SummaryLastID(ms[..n]);
      LastIDGrows(ms[..n], ms[n], Summary(ms[..n]).sourceEndID);
      assert ms[..n] + [ms[n]] == ms;
    }
  }

  lemma {:induction false} SummaryTimeAndWeight(ms: seq<Message>)
    ensures FirstTime(ms, Summary(ms).sourceTimeMS) && Summary(ms).sourceCount == TotalWeight(ms) >= |ms|
    decreases |ms|
  {
    if ms != [] {
      var n := |ms| - 1;
      SummaryTimeAndWeight(ms[..n]);
      FirstTimeGrows(ms[..n], ms[n], Summary(ms[..n]).sourceTimeMS);
      assert ms[..n] + [ms[n]] == ms;
    }
  }

  lemma FirstIDGrows(ms: seq<Message>, m: Message, id: string)
    requires FirstID(ms, id)
    ensures FirstID(ms + [m], if id == "" then m.sourceID else id)
  {
    var all := ms + [m];
    if id != "" {
      var i :| 0 <= i < |ms| && ms[i].sourceID == id && forall j :: 0 <= j < i ==> ms[j].sourceID == "";
      assert all[i].sourceID == id;
    } else {
      assert all[|ms|] == m;
    }
  }

  lemma LastIDGrows(ms: seq<Message>, m: Message, id: string)
    requires LastID(ms, id)
    ensures LastID(ms + [m], if EndID(m) == "" then id else EndID(m))
  {
    var all := ms + [m];
    assert all[|ms|] == m;
    if EndID(m) == "" && id != "" {
      var i :| 0 <= i < |ms| && EndID(ms[i]) == id && forall j :: i < j < |ms| ==> EndID(ms[j]) == "";
      assert EndID(all[i]) == id;
    }
  }

  lemma FirstTimeGrows(ms: seq<Message>, m: Message, time: int)
    requires FirstTime(ms, time)
    ensures FirstTime(ms + [m], if time == 0 then m.sourceTimeMS else time)
  {
    var all := ms + [m];
    if time != 0 {
      var i :| 0 <= i < |ms| && ms[i].sourceTimeMS == time && forall j :: 0 <= j < i ==> ms[j].sourceTimeMS == 0;
      assert all[i].sourceTimeMS == time;
    } else {
      assert all[|ms|] == m;
    }
  }

  /** The loop with its four accumulators. */
  method Summarize(ms: seq<Message>) returns (r: Message)
    ensures r == Summary(ms)
  {
    var sourceID, sourceEndID, sourceCount, sourceTimeMS := "", "", 0, 0;
    for i := 0 to |ms|
      invariant Message("user", SummaryText, sourceID, sourceEndID, sourceCount, sourceTimeMS) == Summary(ms[..i])
    {
      assert ms[..i + 1][..i] == ms[..i];
      if sourceID == "" && ms[i].sourceID != "" { sourceID := ms[i].sourceID; }
      var endID := ms[i].sourceEndID;
      if endID == "" { endID := ms[i].sourceID; }
      if endID != "" { sourceEndID := endID; }
      var count := ms[i].sourceCount;
      if count < 1 { count := 1; }
      sourceCount := sourceCount + count;
      if sourceTimeMS == 0 && ms[i].sourceTimeMS != 0 { sourceTimeMS := ms[i].sourceTimeMS; }
    }
    assert ms[..|ms|] == ms;
    r := Message("user", SummaryText, sourceID, sourceEndID, sourceCount, sourceTimeMS);
  }

  // ---- Compaction ----

  function Keep(limit: int): nat { if limit - 1 < 1 then 1 else limit - 1 }

  /** With a negative limit and no messages at all the code would slice out of range. */
  function Compact(ms: seq<Message>, limit: nat): seq<Message> {
    if |ms| <= limit then ms else
      var split := |ms| - Keep(limit);
      [Summary(ms[..split])] + ms[split..]
  }

  /** Summarising a summary with what followed is summarising all at once. */
  lemma {:induction false} SummaryOfSummary(a: seq<Message>, b: seq<Message>)
    requires a != []
    ensures Summary([Summary(a)] + b) == Summary(a + b)
    decreases |b|
  {
    if b == [] {
      SummaryOfOne(a);
      assert [Summary(a)] + b == [Summary(a)] && a + b == a;
    } else {
      var c, m := b[..|b| - 1], b[|b| - 1];
      assert b == c + [m];
      SummaryOfSummary(a, c);
      SummaryOfMore([Summary(a)], c, m);
      SummaryOfMore(a, c, m);
    }
  }

  lemma SummaryOfMore(a: seq<Message>, c: seq<Message>, m: Message)
    ensures Summary(a + (c + [m])) == With(Summary(a + c), m)
  {
    assert a + (c + [m]) == (a + c) + [m];
    SummarySnoc(a + c, m);
  }

  lemma SummaryOfOne(a: seq<Message>)
    requires a != []
    ensures Summary([Summary(a)]) == Summary(a)
  {
    SummaryMeans(a);
    EndOfSummary(a);
    assert [Summary(a)] == [] + [Summary(a)];
    SummarySnoc([], Summary(a));
  }

  lemma {:induction false} EndOfSummary(a: seq<Message>)
    ensures Summary(a).sourceEndID == "" ==> Summary(a).sourceID == ""
    decreases |a|
  {
    if a != [] { EndOfSummary(a[..|a| - 1]); }
  }

  /** Compacting now and again later is compacting once at the end. */
  lemma CompactIsIncremental(a: seq<Message>, b: seq<Message>, limit: nat)
    requires limit >= 1
    ensures Compact(Compact(a, limit) + b, limit) == Compact(a + b, limit)
  {
    if |a| > limit {
      var pre, tail := a[..|a| - Keep(limit)], a[|a| - Keep(limit)..];
      assert a == pre + tail;
      CompactTwice(pre, tail, b, limit);
    }
  }

  lemma CompactTwice(pre: seq<Message>, tail: seq<Message>, b: seq<Message>, limit: nat)
    requires pre != [] && |tail| == Keep(limit) && limit >= 1 && |pre + tail| > limit
    ensures Compact(Compact(pre + tail, limit) + b, limit) == Compact(pre + tail + b, limit)
  {
    CompactSplits(pre + tail, limit, pre, tail);
    CompactGrown(pre, tail, b, limit);
    Regroup(pre, tail, b);
    Regroup([Summary(pre)], tail, b);
  }

  lemma Regroup<T>(a: seq<T>, b: seq<T>, c: seq<T>)
    ensures a + b + c == a + (b + c)
  {
  }

  lemma CompactGrown(pre: seq<Message>, tail: seq<Message>, b: seq<Message>, limit: nat)
    requires pre != [] && |tail| == Keep(limit) && limit >= 1 && |pre + tail| > limit
    ensures Compact([Summary(pre)] + (tail + b), limit) == Compact(pre + (tail + b), limit)
  {
    if |tail + b| >= limit {
      CompactAgain(pre, tail + b, limit);
    } else {
      assert b == [] && tail + b == tail;
      CompactSplits(pre + tail, limit, pre, tail);
    }
  }

  lemma CompactAgain(pre: seq<Message>, grow: seq<Message>, limit: nat)
    requires pre != [] && |grow| >= limit >= 1
    ensures Compact([Summary(pre)] + grow, limit) == Compact(pre + grow, limit)
  {
    CompactLong([Summary(pre)], grow, limit);
    CompactLong(pre, grow, limit);
    SummaryOfSummary(pre, grow[..|grow| - Keep(limit)]);
  }

  /** Compaction splits off the newest messages that it keeps. */
  lemma CompactSplits(ms: seq<Message>, limit: nat, head: seq<Message>, tail: seq<Message>)
    requires |ms| > limit && ms == head + tail && |tail| == Keep(limit)
    ensures Compact(ms, limit) == [Summary(head)] + tail
  {
    assert |ms| - Keep(limit) == |head|;
    assert ms[..|head|] == head && ms[|head|..] == tail;
  }

  lemma CompactLong(a: seq<Message>, b: seq<Message>, limit: nat)
    requires Keep(limit) <= |b| && |a + b| > limit
    ensures Compact(a + b, limit) == [Summary(a + b[..|b| - Keep(limit)])] + b[|b| - Keep(limit)..]
  {
    var k := |b| - Keep(limit);
    assert a + b == (a + b[..k]) + b[k..] by { assert b == b[..k] + b[k..]; }
    CompactSplits(a + b, limit, a + b[..k], b[k..]);
  }

  /** What compaction keeps of any messages. */
  lemma CompactKeeps(ms: seq<Message>, limit: nat)
    requires limit >= 1
    ensures limit >= 2 ==> |Compact(ms, limit)| <= limit
    ensures TotalWeight(Compact(ms, limit)) == TotalWeight(ms)
    ensures |ms| >= Keep(limit) ==>
      |Compact(ms, limit)| >= Keep(limit) && Compact(ms, limit)[|Compact(ms, limit)| - Keep(limit)..] == ms[|ms| - Keep(limit)..]
  {
    if |ms| > limit { CompactKeepsWeight(ms, limit); }
  }

  lemma CompactKeepsWeight(ms: seq<Message>, limit: nat)
    requires |ms| > limit >= 1
    ensures TotalWeight(Compact(ms, limit)) == TotalWeight(ms)
  {
    var split := |ms| - Keep(limit);
    CompactSplits(ms, limit, ms[..split], ms[split..]);
    SameWeight(ms[..split], ms[split..]);
    assert ms[..split] + ms[split..] == ms;
  }

  lemma SameWeight(head: seq<Message>, tail: seq<Message>)
    requires head != []
    ensures TotalWeight([Summary(head)] + tail) == TotalWeight(head + tail)
  {
    WeightConcat([Summary(head)], tail);
    WeightConcat(head, tail);
    SummaryWeighs(head);
  }

  lemma SummaryWeighs(ms: seq<Message>)
    requires ms != []
    ensures TotalWeight([Summary(ms)]) == TotalWeight(ms)
  {
    SummaryTimeAndWeight(ms);
    assert [Summary(ms)][..0] == [] && TotalWeight([]) == 0;
  }

  lemma {:induction false} WeightConcat(a: seq<Message>, b: seq<Message>)
    ensures TotalWeight(a + b) == TotalWeight(a) + TotalWeight(b)
    decreases |b|
  {
    if b == [] {
      assert a + b == a;
    } else {
      WeightConcat(a, b[..|b| - 1]);
      assert (a + b)[..|a + b| - 1] == a + b[..|b| - 1];
    }
  }

  /** Few messages stay as they are; of more the newest stay, all but one of the limit but at least one, behind one summary. */
  lemma CompactExactly(ms: seq<Message>, limit: nat)
    ensures var r, kept := Compact(ms, limit), if limit >= 2 then limit - 1 else 1;
      && (|ms| <= limit ==> r == ms)
      && (|ms| > limit ==>
            && |r| == kept + 1 && r[1..] == ms[|ms| - kept..]
            && r[0].role == "user" && r[0].body == SummaryText && r[0].sourceCount == TotalWeight(ms[..|ms| - kept])
            && FirstID(ms[..|ms| - kept], r[0].sourceID) && LastID(ms[..|ms| - kept], r[0].sourceEndID)
            && FirstTime(ms[..|ms| - kept], r[0].sourceTimeMS))
  {
    if |ms| > limit {
      var head := ms[..|ms| - Keep(limit)];
      CompactSplits(ms, limit, head, ms[|ms| - Keep(limit)..]);
      SummaryMeans(head);
      SummaryIsOne(head);
    }
  }

  lemma SummaryIsOne(ms: seq<Message>)
    ensures Summary(ms).role == "user" && Summary(ms).body == SummaryText
  {
  }

  /** The length stays within the limit for all messages exactly when the limit is at least two, or zero messages are all there are. */
  lemma LengthBoundExactly(ms: seq<Message>, limit: nat)
    ensures |Compact(ms, limit)| <= limit <==> limit >= 2 || |ms| <= limit
  {
  }

  /** With a limit of zero, compacting step by step counts a message that never was. The configuration admits limits from 2 to 50 only. */
  lemma ZeroLimitMiscounts(m: Message)
    requires m.sourceCount == 1
    ensures Compact(Compact([m], 0) + [m], 0) != Compact([m, m], 0)
  {
    var s := Summary([]);
    assert [m][..0] == [] && [m][0..] == [m];
    assert Compact([m], 0) + [m] == [s, m, m];
    assert [s, m, m][..2] == [s, m] && [s, m][..1] == [s] && [s][..0] == [];
    assert [m, m][..1] == [m];
    assert Summary([s]).sourceCount == 1 && Summary([s, m]).sourceCount == 2 && Summary([m]).sourceCount == 1;
    assert Compact([s, m, m], 0)[0] == Summary([s, m]) && Compact([m, m], 0)[0] == Summary([m]);
  }

  // ---- The store ----

  datatype Entry = Entry(messages: seq<Message>, updatedAt: int)

  datatype Operation =
    | Append(key: string, now: int, messages: seq<Message>)
    | Snapshot(key: string, now: int)
    | Clear(key: string)
    | Prune(now: int)

  type Entries = map<string, Entry>

  predicate Expired(e: Entry, ttl: int, now: int) { now - e.updatedAt > ttl }

  function Live(entries: Entries, ttl: int, key: string, now: int): seq<Message> {
    if key in entries && !Expired(entries[key], ttl, now) then entries[key].messages else []
  }

  /** One operation, with `squeeze` applied to what an append leaves; the answer is empty where there is none. */
  function Operate(entries: Entries, ttl: int, op: Operation, squeeze: seq<Message> -> seq<Message>): (Entries, seq<Message>) {
    match op
    case Append(key, now, ms) =>
      var all := squeeze(Live(entries, ttl, key, now) + ms);
      (entries[key := Entry(all, now)], all)
    case Snapshot(key, now) =>
      (if key in entries && Expired(entries[key], ttl, now) then entries - {key} else entries, Live(entries, ttl, key, now))
    case Clear(key) => (entries - {key}, [])
    case Prune(now) => (map key | key in entries && !Expired(entries[key], ttl, now) :: entries[key], [])
  }

  function Compacting(limit: nat): seq<Message> -> seq<Message> { ms => Compact(ms, limit) }

  function Unbounded(): seq<Message> -> seq<Message> { ms => ms }

  class ContextStore {
    const ttl: int
    const limit: nat
    var entries: Entries

    constructor (ttl: int, limit: nat)
      ensures this.ttl == ttl && this.limit == limit && entries == map[]
    {
      this.ttl, this.limit, entries := ttl, limit, map[];
    }

    method CompactMessages(ms: seq<Message>) returns (r: seq<Message>)
      ensures r == Compact(ms, limit)
    {
      if |ms| <= limit { return ms; }
      var keep := limit - 1;
      if keep < 1 { keep := 1; }
      var split := |ms| - keep;
      var head, tail := ms[..split], ms[split..];
      var summary := Summarize(head);
      r := [summary] + tail;
      assert ms == head + tail;
      CompactSplits(ms, limit, head, tail);
    }

    method Append(key: string, now: int, messages: seq<Message>) returns (r: seq<Message>)
      modifies this
      ensures (entries, r) == Operate(old(entries), ttl, Operation.Append(key, now, messages), Compacting(limit))
    {
      var so: seq<Message> := [];
      if key in entries && now - entries[key].updatedAt <= ttl { so := entries[key].messages; }
      r := CompactMessages(so + messages);
      entries := entries[key := Entry(r, now)];
    }

    method Snapshot(key: string, now: int) returns (r: seq<Message>)
      modifies this
      ensures (entries, r) == Operate(old(entries), ttl, Operation.Snapshot(key, now), Compacting(limit))
    {
      if key !in entries { return []; }
      if now - entries[key].updatedAt > ttl {
        entries := entries - {key};
        return [];
      }
      r := entries[key].messages;
    }

    method Clear(key: string)
      modifies this
      ensures entries == Operate(old(entries), ttl, Operation.Clear(key), Compacting(limit)).0
    {
      entries := entries - {key};
    }

    method Prune(now: int)
      modifies this
      ensures entries == Operate(old(entries), ttl, Operation.Prune(now), Compacting(limit)).0
    {
      var keys := entries.Keys;
      while keys != {}
        invariant keys <= old(entries).Keys
        invariant forall k :: k in entries <==>
          k in old(entries) && (k in keys || !Expired(old(entries)[k], ttl, now))
        invariant forall k :: k in entries ==> entries[k] == old(entries)[k]
        decreases |keys|
      {
        var key :| key in keys;
        if now - entries[key].updatedAt > ttl { entries := entries - {key}; }
        keys := keys - {key};
      }
    }
  }

  // ---- The bounded store refines an unbounded one ----

  /** Each entry of `a` is the compacted entry of `b`. */
  ghost predicate Compacted(a: Entries, b: Entries, limit: nat) {
    a.Keys == b.Keys && forall k :: k in b ==> a[k] == Entry(Compact(b[k].messages, limit), b[k].updatedAt)
  }

  /** An operation on both stores answers the same up to compaction, and keeps them in step. */
  lemma OperationRefines(a: Entries, b: Entries, ttl: int, limit: nat, op: Operation)
    requires limit >= 1 && Compacted(a, b, limit)
    ensures var x, y := Operate(a, ttl, op, Compacting(limit)), Operate(b, ttl, op, Unbounded());
      Compacted(x.0, y.0, limit) && x.1 == Compact(y.1, limit)
  {
    match op {
      case Append(key, now, ms) =>
        var so := Live(b, ttl, key, now);
        assert Live(a, ttl, key, now) == Compact(so, limit);
        CompactIsIncremental(so, ms, limit);
      case _ =>
    }
  }

  /** An append starts anew when the entry is older than its lifetime, or missing; it is compacted and stamped. */
  lemma AppendExactly(entries: Entries, ttl: int, key: string, now: int, ms: seq<Message>, limit: nat)
    ensures var (r, answer) := Operate(entries, ttl, Append(key, now, ms), Compacting(limit));
      var so := if key in entries && now - entries[key].updatedAt <= ttl then entries[key].messages else [];
      && answer == Compact(so + ms, limit) && key in r && r[key] == Entry(answer, now)
      && r.Keys == entries.Keys + {key} && forall k :: k in entries && k != key ==> r[k] == entries[k]
  {
  }

  /** A snapshot answers with an entry no older than its lifetime and drops an older one; clearing and pruning drop entries. */
  lemma DroppingExactly(entries: Entries, ttl: int, key: string, now: int, limit: nat)
    ensures var (r, answer) := Operate(entries, ttl, Snapshot(key, now), Compacting(limit));
      if key in entries && now - entries[key].updatedAt <= ttl then r == entries && answer == entries[key].messages
      else r == entries - {key} && answer == []
    ensures Operate(entries, ttl, Clear(key), Compacting(limit)).0 == entries - {key}
    ensures var r := Operate(entries, ttl, Prune(now), Compacting(limit)).0;
      forall k :: (k in r <==> k in entries && now - entries[k].updatedAt <= ttl) && (k in r ==> r[k] == entries[k])
  {
  }

  ghost function Answers(entries: Entries, ttl: int, ops: seq<Operation>, squeeze: seq<Message> -> seq<Message>): seq<seq<Message>>
    decreases |ops|
  {
    if ops == [] then [] else
      var (next, answer) := Operate(entries, ttl, ops[0], squeeze);
      [answer] + Answers(next, ttl, ops[1..], squeeze)
  }

  /** Over any run, expiry included, every answer is the compaction of what a store without a bound would say. */
  lemma {:induction false} StoreRefines(a: Entries, b: Entries, ttl: int, limit: nat, ops: seq<Operation>)
    requires limit >= 1 && Compacted(a, b, limit)
    ensures var xs, ys := Answers(a, ttl, ops, Compacting(limit)), Answers(b, ttl, ops, Unbounded());
      |xs| == |ys| == |ops| && forall i :: 0 <= i < |ops| ==> xs[i] == Compact(ys[i], limit)
    decreases |ops|
  {
    if ops != [] {
      OperationRefines(a, b, ttl, limit, ops[0]);
      StoreRefines(Operate(a, ttl, ops[0], Compacting(limit)).0, Operate(b, ttl, ops[0], Unbounded()).0, ttl, limit, ops[1..]);
    }
  }
}
