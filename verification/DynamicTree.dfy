/** Dynamic content trees: their limits, and the validator that walks them with one shared state (dynamic_content.go). */
module DynamicTree {
  import opened Common

  const MAX_NODES := 100
  const MAX_DEPTH := 10
  const MAX_CHILDREN := 50
  const MAX_TEXT := 10000
  const MAX_IDENTIFIER := 128
  const MAX_TYPE := 64
  const MAX_URL := 2048
  const MAX_IMAGES := 20

  datatype Json = Text(chars: string) | Items(items: seq<Json>) | Fields(fields: map<string, Json>) | Scalar

  /** A key of a node: missing, of the wrong shape, or there. */
  datatype Slot<T> = Absent | Malformed | Present(value: T)

  /** The definition of one event; its action may be missing or malformed. */
  datatype EventDef = NotAnObject | Event(action: Slot<string>)

  /** A node without its children. A missing or malformed id or type reads as the empty string. */
  datatype Label = Label(id: string, typeName: string, props: Slot<map<string, Json>>, events: Slot<map<string, EventDef>>)

  datatype Child = Object(node: Node) | Other

  datatype Children = NoChildren | BadChildren | Children(list: seq<Child>)

  datatype Node = Node(own: Label, children: Children)

  // ---- One node ----

  predicate ValidIdentifier(s: string) { !Blank(s) && |s| <= MAX_IDENTIFIER }

  predicate ValidValue(v: Json, depth: nat) {
    depth <= MAX_DEPTH && match v
    case Text(chars) => |chars| <= MAX_TEXT
    case Items(items) => |items| <= MAX_CHILDREN && forall i :: 0 <= i < |items| ==> ValidValue(items[i], depth + 1)
    case Fields(fields) => forall k :: k in fields ==> ValidValue(fields[k], depth + 1)
    case Scalar => true
  }

  predicate HttpsURL(s: string) {
    8 < |s| <= MAX_URL && s[..8] == "https://" && !Space(s[|s| - 1])
  }

  predicate ValidProps(props: Slot<map<string, Json>>) {
    !props.Malformed? && (props.Present? ==> forall k :: k in props.value ==> ValidValue(props.value[k], 1))
  }

  predicate ValidImage(l: Label) {
    l.typeName == "image" && l.props.Present? && "url" in l.props.value ==>
      l.props.value["url"].Text? && HttpsURL(l.props.value["url"].chars)
  }

  predicate ValidEvent(name: string, d: EventDef) {
    && name in {"click", "tap", "submit", "change", "select"} && d.Event?
    && !d.action.Malformed? && (d.action.Present? ==> |d.action.value| <= MAX_IDENTIFIER)
  }

  predicate ValidEvents(events: Slot<map<string, EventDef>>) {
    !events.Malformed? && (events.Present? ==> forall k :: k in events.value ==> ValidEvent(k, events.value[k]))
  }

  predicate ValidLabel(l: Label) {
    && ValidIdentifier(l.id) && !Blank(l.typeName) && |l.typeName| <= MAX_TYPE
    && ValidProps(l.props) && ValidImage(l) && ValidEvents(l.events)
  }

  // ---- Trees ----

  function ChildList(n: Node): seq<Child> {
    if n.children.Children? then n.children.list else []
  }

  /** The labels of a tree in pre-order; what is not an object is skipped. */
  function Flat(n: Node): seq<Label>
    decreases n
  {
    [n.own] + (if n.children.Children? then FlatAll(n.children.list) else [])
  }

  function FlatAll(cs: seq<Child>): seq<Label>
    decreases cs
  {
    if cs == [] then [] else FlatChild(cs[0]) + FlatAll(cs[1..])
  }

  function FlatChild(c: Child): seq<Label>
    decreases c
  {
    if c.Object? then Flat(c.node) else []
  }

  function Height(n: Node): nat
    decreases n
  {
    if n.children.Children? then HeightAll(n.children.list) else 0
  }

  function HeightAll(cs: seq<Child>): nat
    decreases cs
  {
    if cs == [] then 0 else var a, b := HeightChild(cs[0]), HeightAll(cs[1..]); if a < b then b else a
  }

  function HeightChild(c: Child): nat
    decreases c
  {
    if c.Object? then 1 + Height(c.node) else 1
  }

  /** Every label is valid, and children are a list of at most fifty objects wherever they are given. */
  predicate WellFormed(n: Node)
    decreases n
  {
    && ValidLabel(n.own)
    && !n.children.BadChildren?
    && (n.children.Children? ==> |n.children.list| <= MAX_CHILDREN && WellFormedAll(n.children.list))
  }

  predicate WellFormedAll(cs: seq<Child>)
    decreases cs
  {
    cs == [] || (WellFormedChild(cs[0]) && WellFormedAll(cs[1..]))
  }

  predicate WellFormedChild(c: Child)
    decreases c
  {
    c.Object? && WellFormed(c.node)
  }

  predicate DistinctIDs(fs: seq<Label>) {
    forall i, j :: 0 <= i < j < |fs| ==> fs[i].id != fs[j].id
  }

  function IDs(fs: seq<Label>): set<string> {
    set i | 0 <= i < |fs| :: fs[i].id
  }

  function Images(fs: seq<Label>): nat {
    if fs == [] then 0 else (if fs[0].typeName == "image" then 1 else 0) + Images(fs[1..])
  }

  /** What a tree has to be, said without a walk. */
  predicate ValidTree(n: Node) {
    && |Flat(n)| <= MAX_NODES && Height(n) <= MAX_DEPTH
    && DistinctIDs(Flat(n)) && Images(Flat(n)) <= MAX_IMAGES && WellFormed(n)
  }

  // ---- The walk ----

  datatype Tally = Tally(ids: set<string>, count: nat, images: nat)

  predicate Fits(t: Tally, fs: seq<Label>) {
    && DistinctIDs(fs) && t.ids !! IDs(fs)
    && t.count + |fs| <= MAX_NODES && t.images + Images(fs) <= MAX_IMAGES
  }

  function Add(t: Tally, fs: seq<Label>): Tally {
    Tally(t.ids + IDs(fs), t.count + |fs|, t.images + Images(fs))
  }

  lemma {:induction false} ImagesConcat(a: seq<Label>, b: seq<Label>)
    ensures Images(a + b) == Images(a) + Images(b)
  {
    if a == [] {
      assert a + b == b;
    } else {
      ImagesConcat(a[1..], b);
      assert (a + b)[1..] == a[1..] + b;
    }
  }

  lemma IDsConcat(a: seq<Label>, b: seq<Label>)
    ensures IDs(a + b) == IDs(a) + IDs(b)
  {
    forall x | x in IDs(a) + IDs(b) ensures x in IDs(a + b) {
      if x in IDs(a) {
        var i :| 0 <= i < |a| && a[i].id == x;
        assert (a + b)[i].id == x;
      } else {
        var i :| 0 <= i < |b| && b[i].id == x;
        assert (a + b)[|a| + i].id == x;
      }
    }
  }

  lemma DistinctConcat(a: seq<Label>, b: seq<Label>)
    ensures DistinctIDs(a + b) <==> DistinctIDs(a) && DistinctIDs(b) && IDs(a) !! IDs(b)
  {
    var ab := a + b;
    if DistinctIDs(ab) {
      forall i, j | 0 <= i < j < |a| ensures a[i].id != a[j].id { assert ab[i].id != ab[j].id; }
      forall i, j | 0 <= i < j < |b| ensures b[i].id != b[j].id { assert ab[|a| + i].id != ab[|a| + j].id; }
      forall i, j | 0 <= i < |a| && 0 <= j < |b| ensures a[i].id != b[j].id { assert ab[i].id != ab[|a| + j].id; }
    }
    if DistinctIDs(a) && DistinctIDs(b) && IDs(a) !! IDs(b) {
      forall i, j | 0 <= i < j < |ab| ensures ab[i].id != ab[j].id {
        if i < |a| <= j {
          assert a[i].id in IDs(a) && b[j - |a|].id in IDs(b);
        }
      }
    }
  }

  lemma FitsConcat(t: Tally, a: seq<Label>, b: seq<Label>)
    ensures Fits(t, a + b) <==> Fits(t, a) && Fits(Add(t, a), b)
    ensures Add(t, a + b) == Add(Add(t, a), b)
  {
    ImagesConcat(a, b);
    IDsConcat(a, b);
    DistinctConcat(a, b);
  }

  ghost predicate Accepts(t: Tally, n: Node, depth: nat) {
    Fits(t, Flat(n)) && WellFormed(n) && depth + Height(n) <= MAX_DEPTH
  }

  /** `depth` is that of the children. */
  ghost predicate AcceptsAll(t: Tally, cs: seq<Child>, depth: nat) {
    Fits(t, FlatAll(cs)) && WellFormedAll(cs) && (cs != [] ==> depth - 1 + HeightAll(cs) <= MAX_DEPTH)
  }

  class ValidationState {
    var ids: set<string>
    var count: nat
    var images: nat

    constructor ()
      ensures View() == Tally({}, 0, 0)
    {
      ids, count, images := {}, 0, 0;
    }

    ghost function View(): Tally reads this { Tally(ids, count, images) }

    /** The checks of one node before its children. */
    method ValidateLabel(l: Label) returns (ok: bool)
      requires images <= MAX_IMAGES
      modifies this
      ensures ok <==> Fits(old(View()), [l]) && ValidLabel(l)
      ensures ok ==> View() == Add(old(View()), [l])
    {
      assert IDs([l]) == {l.id} by { assert [l][0].id == l.id; }
      assert Images([l]) == if l.typeName == "image" then 1 else 0;
      count := count + 1;
      if count > MAX_NODES { return false; }
      if !ValidIdentifier(l.id) || l.id in ids { return false; }
      ids := ids + {l.id};
      if Blank(l.typeName) || |l.typeName| > MAX_TYPE || !ValidProps(l.props) { return false; }
      if l.typeName == "image" {
        images := images + 1;
        if images > MAX_IMAGES || !ValidImage(l) { return false; }
      }
      ok := ValidEvents(l.events);
    }

    /** Accepts exactly the trees that fit on top of what has been counted so far. */
    method ValidateNode(n: Node, depth: nat) returns (ok: bool)
      requires images <= MAX_IMAGES
      modifies this
      ensures ok <==> Accepts(old(View()), n, depth)
      ensures ok ==> View() == Add(old(View()), Flat(n))
      decreases |Flat(n)|, 0
    {
      if depth > MAX_DEPTH { return false; }
      var rest := if n.children.Children? then n.children.list else [];
      FitsConcat(View(), [n.own], FlatAll(rest));
      assert Flat(n) == [n.own] + FlatAll(rest);
      ok := ValidateLabel(n.own);
      if !ok { return; }
      assert Fits(old(View()), Flat(n)) <==> Fits(View(), FlatAll(rest));
      if n.children == NoChildren {
        assert FlatAll(rest) == [] && IDs([]) == {};
        return;
      }
      if n.children.BadChildren? || |n.children.list| > MAX_CHILDREN { return false; }
      assert Accepts(old(View()), n, depth) <==> AcceptsAll(View(), rest, depth + 1);
      ok := ValidateChildren(rest, depth + 1);
    }

    /** The loop over the children of one node. */
    method ValidateChildren(list: seq<Child>, depth: nat) returns (ok: bool)
      requires images <= MAX_IMAGES && count <= MAX_NODES && depth > 0
      modifies this
      ensures ok <==> AcceptsAll(old(View()), list, depth)
      ensures ok ==> View() == Add(old(View()), FlatAll(list))
      decreases |FlatAll(list)|, 1
    {
      ghost var start := View();
      var i := 0;
      assert list[0..] == list;
      while i < |list|
        invariant 0 <= i <= |list| && images <= MAX_IMAGES && count <= MAX_NODES
        invariant AcceptsAll(start, list, depth) <==> AcceptsAll(View(), list[i..], depth)
        invariant Add(View(), FlatAll(list[i..])) == Add(start, FlatAll(list))
        invariant |FlatAll(list[i..])| <= |FlatAll(list)|
      {
        if list[i].Other? {
          assert !WellFormedChild(list[i..][0]);
          return false;
        }
        SplitChildren(View(), list[i..], depth);
        assert list[i..][1..] == list[i + 1..];
        var accepted := ValidateNode(list[i].node, depth);
        if !accepted { return false; }
        i := i + 1;
      }
      assert list[i..] == [] && IDs([]) == {};
      ok := true;
    }
  }

  /** The first child is accepted, and then the others on top of it. */
  lemma SplitChildren(t: Tally, cs: seq<Child>, depth: nat)
    requires cs != [] && cs[0].Object? && depth > 0
    ensures AcceptsAll(t, cs, depth) <==>
      Accepts(t, cs[0].node, depth) && AcceptsAll(Add(t, Flat(cs[0].node)), cs[1..], depth)
    ensures Add(t, FlatAll(cs)) == Add(Add(t, Flat(cs[0].node)), FlatAll(cs[1..]))
    ensures |Flat(cs[0].node)| <= |FlatAll(cs)| && |FlatAll(cs[1..])| <= |FlatAll(cs)|
  {
    FitsConcat(t, Flat(cs[0].node), FlatAll(cs[1..]));
    assert FlatAll(cs) == Flat(cs[0].node) + FlatAll(cs[1..]);
    assert Fits(t, FlatAll(cs)) <==> Fits(t, Flat(cs[0].node)) && Fits(Add(t, Flat(cs[0].node)), FlatAll(cs[1..]));
    assert WellFormedAll(cs) <==> WellFormed(cs[0].node) && WellFormedAll(cs[1..]);
    assert HeightAll(cs) == var a, b := 1 + Height(cs[0].node), HeightAll(cs[1..]); if a < b then b else a;
    assert (depth - 1 + HeightAll(cs) <= MAX_DEPTH) <==>
      depth + Height(cs[0].node) <= MAX_DEPTH && (cs[1..] != [] ==> depth - 1 + HeightAll(cs[1..]) <= MAX_DEPTH);
  }

  /** From an empty state the walk accepts exactly the valid trees. */
  method ValidateTree(n: Node) returns (ok: bool)
    ensures ok <==> ValidTree(n)
  {
    var state := new ValidationState();
    assert IDs([]) == {};
    ok := state.ValidateNode(n, 0);
  }
}
