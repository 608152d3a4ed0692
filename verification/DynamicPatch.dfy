/** Patching a dynamic content tree: finding nodes, the four operations, and batches on message segments (dynamic_content.go). */
module DynamicPatch {
  import opened Common
  import opened DynamicTree

  // ---- Finding a node ----

  /** A node's address: the child numbers from the root down. It stands for a reference into the tree. */
  type Path = seq<nat>

  /** The found node, and the parent with the node's index there; the root has none. */
  datatype Found = Found(node: Node, parent: Option<Node>, index: int, path: Path)

  function FindNode(root: Node, target: string): Option<Found>
    decreases root
  {
    if root.own.id == target then Some(Found(root, None, -1, []))
    else if root.children.Children? then FindInChildren(root.children.list, target, root, 0)
    else None
  }

  /** Searches the children from number `index` of `parent` on. */
  function FindInChildren(cs: seq<Child>, target: string, parent: Node, index: nat): Option<Found>
    decreases cs
  {
    if cs == [] then None else
      match FindInChild(cs[0], target)
      case Some(found) => 
        Some(if found.parent == None then Found(found.node, Some(parent), index, [index]) else found.(path := [index] + found.path))
      case None => FindInChildren(cs[1..], target, parent, index + 1)
  }

  function FindInChild(c: Child, target: string): Option<Found>
    decreases c
  {
    if c.Object? then FindNode(c.node, target) else None
  }

  // ---- Paths ----

  predicate ValidPath(n: Node, p: Path)
    decreases |p|
  {
    p == [] || (p[0] < |ChildList(n)| && ChildList(n)[p[0]].Object? && ValidPath(ChildList(n)[p[0]].node, p[1..]))
  }

  function At(n: Node, p: Path): Node
    requires ValidPath(n, p)
    decreases |p|
  {
    if p == [] then n else At(ChildList(n)[p[0]].node, p[1..])
  }

  function WithChildren(n: Node, cs: seq<Child>): Node { Node(n.own, Children(cs)) }

  /** The tree with the subtree at `p` exchanged. */
  function SetAt(n: Node, p: Path, x: Node): Node
    requires ValidPath(n, p)
    decreases |p|
  {
    if p == [] then x
    else WithChildren(n, ChildList(n)[p[0] := Object(SetAt(ChildList(n)[p[0]].node, p[1..], x))])
  }

  /** The labels before and after the subtree at `p`, in pre-order. */
  function Before(n: Node, p: Path): seq<Label>
    requires ValidPath(n, p)
    decreases |p|
  {
    if p == [] then [] else [n.own] + FlatAll(ChildList(n)[..p[0]]) + Before(ChildList(n)[p[0]].node, p[1..])
  }

  function Behind(n: Node, p: Path): seq<Label>
    requires ValidPath(n, p)
    decreases |p|
  {
    if p == [] then [] else Behind(ChildList(n)[p[0]].node, p[1..]) + FlatAll(ChildList(n)[p[0] + 1..])
  }

  lemma {:induction false} FlatAllConcat(a: seq<Child>, b: seq<Child>)
    ensures FlatAll(a + b) == FlatAll(a) + FlatAll(b)
    decreases |a|
  {
    if a == [] {
      assert a + b == b;
    } else {
      FlatAllConcat(a[1..], b);
      assert (a + b)[0] == a[0] && (a + b)[1..] == a[1..] + b;
      assert FlatChild(a[0]) + (FlatAll(a[1..]) + FlatAll(b)) == (FlatChild(a[0]) + FlatAll(a[1..])) + FlatAll(b);
    }
  }

  lemma FlatAllSplit(cs: seq<Child>, i: nat)
    requires i < |cs|
    ensures FlatAll(cs) == FlatAll(cs[..i]) + FlatChild(cs[i]) + FlatAll(cs[i + 1..])
  {
    assert cs == cs[..i] + cs[i..] && cs[i..][1..] == cs[i + 1..];
    FlatAllConcat(cs[..i], cs[i..]);
  }

  lemma Regroup<T>(a: seq<T>, b: seq<T>, c: seq<T>, d: seq<T>, e: seq<T>, f: seq<T>)
    ensures a + (b + (c + d + e) + f) == (a + b + c) + d + (e + f)
  {
  }

  /** A subtree's labels lie in one stretch. */
  lemma {:induction false} FlatSplit(n: Node, p: Path)
    requires ValidPath(n, p)
    ensures Flat(n) == Before(n, p) + Flat(At(n, p)) + Behind(n, p)
    decreases |p|
  {
    if p != [] {
      var cs, rest := ChildList(n), p[1..];
      var child := cs[p[0]].node;
      FlatSplit(child, rest);
      FlatAllSplit(cs, p[0]);
      Regroup([n.own], FlatAll(cs[..p[0]]), Before(child, rest), Flat(At(child, rest)), Behind(child, rest), FlatAll(cs[p[0] + 1..]));
    }
  }

  lemma {:induction false} SetAtSplit(n: Node, p: Path, x: Node)
    requires ValidPath(n, p)
    ensures var r := SetAt(n, p, x);
      ValidPath(r, p) && At(r, p) == x && Before(r, p) == Before(n, p) && Behind(r, p) == Behind(n, p)
    decreases |p|
  {
    if p != [] {
      var cs, r := ChildList(n), SetAt(n, p, x);
      SetAtSplit(cs[p[0]].node, p[1..], x);
      assert ChildList(r)[..p[0]] == cs[..p[0]];
      assert ChildList(r)[p[0] + 1..] == cs[p[0] + 1..];
    }
  }

  /** Exchanging a subtree exchanges its stretch of labels and nothing else. */
  lemma SetAtFlat(n: Node, p: Path, x: Node)
    requires ValidPath(n, p)
    ensures Flat(SetAt(n, p, x)) == Before(n, p) + Flat(x) + Behind(n, p)
  {
    SetAtSplit(n, p, x);
    FlatSplit(SetAt(n, p, x), p);
  }

  lemma {:induction false} SetAtTwice(n: Node, p: Path, x: Node, y: Node)
    requires ValidPath(n, p)
    ensures ValidPath(SetAt(n, p, x), p) && SetAt(SetAt(n, p, x), p, y) == SetAt(n, p, y)
    decreases |p|
  {
    if p != [] {
      var cs, i := ChildList(n), p[0];
      SetAtTwice(cs[i].node, p[1..], x, y);
      var a, b := Object(SetAt(cs[i].node, p[1..], x)), Object(SetAt(cs[i].node, p[1..], y));
      assert cs[i := a][i := b] == cs[i := b];
    }
  }

  lemma {:induction false} SetAtSelf(n: Node, p: Path)
    requires ValidPath(n, p)
    ensures SetAt(n, p, At(n, p)) == n
    decreases |p|
  {
    if p != [] {
      SetAtSelf(ChildList(n)[p[0]].node, p[1..]);
      assert ChildList(n)[p[0] := ChildList(n)[p[0]]] == ChildList(n);
    }
  }

  lemma {:induction false} PathConcat(n: Node, p: Path, q: Path)
    requires ValidPath(n, p)
    ensures ValidPath(n, p + q) <==> ValidPath(At(n, p), q)
    ensures ValidPath(n, p + q) ==>
      && At(n, p + q) == At(At(n, p), q) && Before(n, p + q) == Before(n, p) + Before(At(n, p), q)
      && Behind(n, p + q) == Behind(At(n, p), q) + Behind(n, p)
    decreases |p|
  {
    if p == [] {
      assert p + q == q;
    } else {
      PathConcat(ChildList(n)[p[0]].node, p[1..], q);
      assert (p + q)[1..] == p[1..] + q;
    }
  }

  // ---- The found node is the first match ----

  predicate Has(fs: seq<Label>, id: string) { exists i :: 0 <= i < |fs| && fs[i].id == id }

  lemma HasConcat(a: seq<Label>, b: seq<Label>, id: string)
    ensures Has(a + b, id) <==> Has(a, id) || Has(b, id)
  {
    if i :| 0 <= i < |a| && a[i].id == id { assert (a + b)[i].id == id; }
    if i :| 0 <= i < |b| && b[i].id == id { assert (a + b)[|a| + i].id == id; }
  }

  /** `p` leads to the first node with id `t` in pre-order. */
  predicate FirstAt(n: Node, t: string, p: Path) {
    ValidPath(n, p) && At(n, p).own.id == t && !Has(Before(n, p), t)
  }

  function FoundAt(n: Node, p: Path): Found
    requires ValidPath(n, p) && (p != [] ==> ValidPath(n, p[..|p| - 1]))
  {
    if p == [] then Found(n, None, -1, p) else Found(At(n, p), Some(At(n, p[..|p| - 1])), p[|p| - 1], p)
  }

  lemma ParentPath(n: Node, p: Path)
    requires ValidPath(n, p) && p != []
    ensures ValidPath(n, p[..|p| - 1]) && p[|p| - 1] < |ChildList(At(n, p[..|p| - 1]))|
    ensures ChildList(At(n, p[..|p| - 1]))[p[|p| - 1]] == Object(At(n, p))
  {
    ValidPrefix(n, p, |p| - 1);
    assert p == p[..|p| - 1] + [p[|p| - 1]];
    PathConcat(n, p[..|p| - 1], [p[|p| - 1]]);
  }

  lemma {:induction false} ValidPrefix(n: Node, p: Path, k: nat)
    requires ValidPath(n, p) && k <= |p|
    ensures ValidPath(n, p[..k])
    decreases |p|
  {
    if k > 0 {
      ValidPrefix(ChildList(n)[p[0]].node, p[1..], k - 1);
      assert p[..k][1..] == p[1..][..k - 1];
    }
  }

  lemma FlatHas(n: Node, t: string)
    ensures Has(Flat(n), t) <==> n.own.id == t || Has(FlatAll(ChildList(n)), t)
  {
    HasConcat([n.own], FlatAll(ChildList(n)), t);
    assert Has([n.own], t) <==> n.own.id == t by { assert [n.own][0] == n.own; }
  }

  /** FindNode answers exactly when the id occurs, with the first match, its parent and its index there. */
  lemma {:induction false} FindNodeIsFirst(n: Node, t: string) returns (p: Path)
    ensures FindNode(n, t).None? <==> !Has(Flat(n), t)
    ensures FindNode(n, t).Some? ==>
      FirstAt(n, t, p) && (p != [] ==> ValidPath(n, p[..|p| - 1])) && FindNode(n, t).value == FoundAt(n, p)
    decreases n, 1
  {
    p := [];
    FlatHas(n, t);
    if n.own.id != t {
      assert !Has([], t);
      if n.children.Children? { p := FindInChildrenIsFirst(n, t, 0); }
      else { assert FlatAll(ChildList(n)) == []; }
    } else {
      assert FirstAt(n, t, []);
    }
  }

  lemma {:induction false} FindInChildrenIsFirst(n: Node, t: string, i: nat) returns (p: Path)
    requires n.children.Children? && i <= |n.children.list| && n.own.id != t && !Has(FlatAll(n.children.list[..i]), t)
    ensures var cs := n.children.list;
      && (FindInChildren(cs[i..], t, n, i).None? <==> !Has(FlatAll(cs), t))
      && (FindInChildren(cs[i..], t, n, i).Some? ==>
            p != [] && FirstAt(n, t, p) && ValidPath(n, p[..|p| - 1]) && FindInChildren(cs[i..], t, n, i).value == FoundAt(n, p))
    decreases n, 0, |n.children.list| - i
  {
    var cs := n.children.list;
    if i == |cs| {
      assert cs[..i] == cs && cs[i..] == [];
      p := [];
    } else {
      assert cs[i..][1..] == cs[i + 1..] && cs[..i + 1] == cs[..i] + [cs[i]];
      FlatAllConcat(cs[..i], [cs[i]]);
      assert FlatAll([cs[i]]) == FlatChild(cs[i]);
      HasConcat(FlatAll(cs[..i]), FlatChild(cs[i]), t);
      FlatAllSplit(cs, i);
      HasConcat(FlatAll(cs[..i]) + FlatChild(cs[i]), FlatAll(cs[i + 1..]), t);
      if cs[i].Object? && FindNode(cs[i].node, t).Some? {
        var q := FindNodeIsFirst(cs[i].node, t);
        p := [i] + q;
        ChildFirst(n, t, i, q);
      } else {
        if cs[i].Object? { var _ := FindNodeIsFirst(cs[i].node, t); }
        p := FindInChildrenIsFirst(n, t, i + 1);
      }
    }
  }

  /** A first match inside child `i`, with none before that child, is a first match of the whole. */
  lemma ChildFirst(n: Node, t: string, i: nat, q: Path)
    requires n.children.Children? && i < |n.children.list| && n.children.list[i].Object?
    requires n.own.id != t && !Has(FlatAll(n.children.list[..i]), t)
    requires FirstAt(n.children.list[i].node, t, q)
    ensures FirstAt(n, t, [i] + q)
    ensures q != [] ==> ValidPath(n.children.list[i].node, q[..|q| - 1])
    ensures ValidPath(n, ([i] + q)[..|q|])
    ensures var inner := n.children.list[i].node;
      FoundAt(n, [i] + q) == if q == [] then Found(inner, Some(n), i, [i]) else FoundAt(inner, q).(path := [i] + q)
  {
    var p, inner := [i] + q, n.children.list[i].node;
    assert p[1..] == q;
    HasConcat([n.own] + FlatAll(n.children.list[..i]), Before(inner, q), t);
    HasConcat([n.own], FlatAll(n.children.list[..i]), t);
    ParentPath(n, p);
    if q != [] {
      ParentPath(inner, q);
      assert p[..|p| - 1] == [i] + q[..|q| - 1];
      assert p[..|p| - 1][1..] == q[..|q| - 1];
    }
  }

  lemma RootComesFirst(n: Node, p: Path)
    requires ValidPath(n, p)
    ensures p != [] ==> Has(Before(n, p), n.own.id)
  {
    if p != [] { assert Before(n, p)[0] == n.own; }
  }

  /** There is one first match. */
  lemma {:induction false} FirstIsUnique(n: Node, t: string, p: Path, q: Path)
    requires FirstAt(n, t, p) && FirstAt(n, t, q)
    ensures p == q
    decreases |p|
  {
    RootComesFirst(n, p);
    RootComesFirst(n, q);
    if p != [] && q != [] {
      var cs := ChildList(n);
      EarlierChild(n, t, p, q);
      EarlierChild(n, t, q, p);
      assert p[0] == q[0];
      HasConcat([n.own] + FlatAll(cs[..p[0]]), Before(cs[p[0]].node, p[1..]), t);
      HasConcat([n.own] + FlatAll(cs[..q[0]]), Before(cs[q[0]].node, q[1..]), t);
      FirstIsUnique(cs[p[0]].node, t, p[1..], q[1..]);
      assert p == [p[0]] + p[1..] && q == [q[0]] + q[1..];
    }
  }

  lemma EarlierChild(n: Node, t: string, p: Path, q: Path)
    requires p != [] && q != [] && ValidPath(n, p) && At(n, p).own.id == t && FirstAt(n, t, q)
    ensures p[0] >= q[0]
  {
    var cs := ChildList(n);
    if p[0] < q[0] {
      var inner := cs[p[0]].node;
      FlatSplit(inner, p[1..]);
      HasConcat(Before(inner, p[1..]) + Flat(At(n, p)), Behind(inner, p[1..]), t);
      HasConcat(Before(inner, p[1..]), Flat(At(n, p)), t);
      FlatHas(At(n, p), t);
      FlatAllSplit(cs[..q[0]], p[0]);
      HasConcat(FlatAll(cs[..q[0]][..p[0]]) + FlatChild(cs[p[0]]), FlatAll(cs[..q[0]][p[0] + 1..]), t);
      HasConcat(FlatAll(cs[..q[0]][..p[0]]), FlatChild(cs[p[0]]), t);
      HasConcat([n.own] + FlatAll(cs[..q[0]]), Before(cs[q[0]].node, q[1..]), t);
      HasConcat([n.own], FlatAll(cs[..q[0]]), t);
    }
  }

  // ---- The four operations ----

  datatype Patch =
    | Update(nodeID: string, props: Option<map<string, Json>>)
    | Replace(nodeID: string, node: Node)
    | Remove(nodeID: string)
    | Create(nodeID: string, parentID: string, node: Node, index: Option<nat>)

  datatype Failure = NotFound | ParentNotFound | AlreadyExists | RootRemoved | TreeMissing | ContentNotFound | Ambiguous
                   | Unreadable | BadMutation | InvalidSchema

  datatype Result<T> = Ok(value: T) | Err(failure: Failure)

  /** What parsing demands of a patch. */
  predicate ValidPatch(p: Patch) {
    && ValidIdentifier(p.nodeID)
    && (p.Update? && p.props.Some? ==> forall k :: k in p.props.value ==> ValidValue(p.props.value[k], 1))
    && (p.Replace? || p.Create? ==> p.node.own.id == p.nodeID)
    && (p.Create? ==> ValidIdentifier(p.parentID) && (p.index.Some? ==> p.index.value <= MAX_CHILDREN))
  }

  /** The first path to an id; FindNodeIsFirst shows that the code's search takes it. */
  ghost function PathTo(n: Node, t: string): Option<Path> {
    if p :| FirstAt(n, t, p) then Some(p) else None
  }

  function Merged(l: Label, props: map<string, Json>): Label {
    l.(props := Present((if l.props.Present? then l.props.value else map[]) + props))
  }

  function Without(cs: seq<Child>, i: nat): seq<Child>
    requires i < |cs|
  {
    cs[..i] + cs[i + 1..]
  }

  function InsertAt(cs: seq<Child>, index: Option<nat>): nat {
    if index.Some? && index.value < |cs| then index.value else |cs|
  }

  function With(cs: seq<Child>, i: nat, c: Child): seq<Child>
    requires i <= |cs|
  {
    cs[..i] + [c] + cs[i..]
  }

  /** The tree without the subtree at `p`. */
  function RemoveAt(root: Node, p: Path): Node
    requires p != [] && ValidPath(root, p)
  {
    ParentPath(root, p);
    var pp, i := p[..|p| - 1], p[|p| - 1];
    SetAt(root, pp, WithChildren(At(root, pp), Without(ChildList(At(root, pp)), i)))
  }

  /** The tree with `node` as child number `i` of the node at `pp`. */
  function PutAt(root: Node, pp: Path, i: nat, node: Node): Node
    requires ValidPath(root, pp) && i <= |ChildList(At(root, pp))|
  {
    SetAt(root, pp, WithChildren(At(root, pp), With(ChildList(At(root, pp)), i, Object(node))))
  }

  ghost function Apply(root: Node, patch: Patch): Result<Node> {
    match patch
    case Update(id, props) =>
      var p := PathTo(root, id);
      if p.None? then Err(NotFound)
      else if props.None? then Ok(root)
      else Ok(SetAt(root, p.value, At(root, p.value).(own := Merged(At(root, p.value).own, props.value))))
    case Replace(id, node) =>
      var p := PathTo(root, id);
      if p.None? then Err(NotFound) else Ok(SetAt(root, p.value, node))
    case Remove(id) =>
      var p := PathTo(root, id);
      if p.None? then Err(NotFound) else if p.value == [] then Err(RootRemoved) else Ok(RemoveAt(root, p.value))
    case Create(id, parentID, node, index) =>
      var p := PathTo(root, parentID);
      if PathTo(root, id).Some? then Err(AlreadyExists)
      else if p.None? then Err(ParentNotFound)
      else Ok(PutAt(root, p.value, InsertAt(ChildList(At(root, p.value)), index), node))
  }

  lemma PathToIs(n: Node, t: string, p: Path)
    requires FirstAt(n, t, p)
    ensures PathTo(n, t) == Some(p)
  {
    var q := PathTo(n, t).value;
    FirstIsUnique(n, t, p, q);
  }

  lemma PathToFinds(n: Node, t: string)
    ensures PathTo(n, t).Some? <==> Has(Flat(n), t)
    ensures PathTo(n, t).Some? ==> FirstAt(n, t, PathTo(n, t).value)
    ensures FindNode(n, t).Some? <==> PathTo(n, t).Some?
    ensures PathTo(n, t).Some? ==>
      var p := PathTo(n, t).value; (p != [] ==> ValidPath(n, p[..|p| - 1])) && FindNode(n, t).value == FoundAt(n, p)
  {
    var p := FindNodeIsFirst(n, t);
    if FindNode(n, t).Some? {
      PathToIs(n, t, p);
    } else if PathTo(n, t).Some? {
      var q := PathTo(n, t).value;
      FlatSplit(n, q);
      HasConcat(Before(n, q) + Flat(At(n, q)), Behind(n, q), t);
      HasConcat(Before(n, q), Flat(At(n, q)), t);
      FlatHas(At(n, q), t);
    }
  }

  // ---- What one operation does to the labels ----

  lemma Pointwise(a: seq<Label>, b: Label, c: seq<Label>, x: Label)
    ensures var all := a + ([b] + c); all[..|a|] == a && all[|a|] == b && all[|a| := x] == a + ([x] + c)
  {
  }

  lemma Associate<T>(a: seq<T>, b: seq<T>, c: seq<T>, d: seq<T>)
    ensures a + (b + c) + d == a + (b + (c + d))
  {
  }

  /** What a label becomes: each key of the patch has the patch's value, every other key the one it had. */
  lemma MergedIs(l: Label, props: map<string, Json>)
    ensures var r := Merged(l, props);
      && r.id == l.id && r.typeName == l.typeName && r.events == l.events && r.props.Present?
      && (forall k :: k in r.props.value <==> k in props || (l.props.Present? && k in l.props.value))
      && (forall k :: k in props ==> r.props.value[k] == props[k])
      && (forall k :: l.props.Present? && k in l.props.value && k !in props ==> r.props.value[k] == l.props.value[k])
  {
  }

  /**
   * An update changes the props of one label, the first with the id, and nothing else: each key of the patch has the patch's
   * value, every other key the value it had, and there are no more.
   */
  lemma UpdateChangesProps(root: Node, id: string, props: map<string, Json>) returns (i: nat, l: Label)
    requires Has(Flat(root), id)
    ensures i < |Flat(root)| && Flat(root)[i].id == id && !Has(Flat(root)[..i], id)
    ensures Apply(root, Update(id, Some(props))).Ok?
    ensures Flat(Apply(root, Update(id, Some(props))).value) == Flat(root)[i := l]
    ensures var was := Flat(root)[i];
      && l.id == was.id && l.typeName == was.typeName && l.events == was.events && l.props.Present?
      && (forall k :: k in l.props.value <==> k in props || (was.props.Present? && k in was.props.value))
      && (forall k :: k in props ==> l.props.value[k] == props[k])
      && (forall k :: was.props.Present? && k in was.props.value && k !in props ==> l.props.value[k] == was.props.value[k])
  {
    PathToFinds(root, id);
    var p := PathTo(root, id).value;
    var was, rest := At(root, p), FlatAll(ChildList(At(root, p)));
    l := Merged(was.own, props);
    MergedIs(was.own, props);
    var changed := was.(own := l);
    FlatSplit(root, p);
    SetAtFlat(root, p, changed);
    i := |Before(root, p)|;
    assert Flat(was) == [was.own] + rest && Flat(changed) == [changed.own] + rest;
    Associate(Before(root, p), [was.own], rest, Behind(root, p));
    Associate(Before(root, p), [changed.own], rest, Behind(root, p));
    Pointwise(Before(root, p), was.own, rest + Behind(root, p), changed.own);
  }

  /** A replacement exchanges the labels of the first subtree with the id for those of the new one. */
  lemma ReplaceExchangesSubtree(root: Node, id: string, node: Node) returns (pre: seq<Label>, sub: Node, post: seq<Label>)
    requires Has(Flat(root), id)
    ensures Apply(root, Replace(id, node)).Ok?
    ensures Flat(root) == pre + Flat(sub) + post && sub.own.id == id && !Has(pre, id)
    ensures Flat(Apply(root, Replace(id, node)).value) == pre + Flat(node) + post
  {
    PathToFinds(root, id);
    var p := PathTo(root, id).value;
    pre, sub, post := Before(root, p), At(root, p), Behind(root, p);
    FlatSplit(root, p);
    SetAtFlat(root, p, node);
  }

  lemma OneStep(parent: Node, i: nat)
    requires ValidPath(parent, [i])
    ensures Before(parent, [i]) == [parent.own] + FlatAll(ChildList(parent)[..i])
    ensures Behind(parent, [i]) == FlatAll(ChildList(parent)[i + 1..])
  {
    assert [i][1..] == [];
  }

  lemma LastStep(root: Node, p: Path)
    requires p != [] && ValidPath(root, p)
    ensures var pp, i := p[..|p| - 1], p[|p| - 1];
      ValidPath(root, pp) && i < |ChildList(At(root, pp))|
      && Before(root, p) == Before(root, pp) + ([At(root, pp).own] + FlatAll(ChildList(At(root, pp))[..i]))
      && Behind(root, p) == FlatAll(ChildList(At(root, pp))[i + 1..]) + Behind(root, pp)
  {
    ParentPath(root, p);
    var pp, i := p[..|p| - 1], p[|p| - 1];
    assert pp + [i] == p;
    PathConcat(root, pp, [i]);
    OneStep(At(root, pp), i);
  }

  /** Removing a subtree removes its stretch of labels. */
  lemma RemoveAtFlat(root: Node, p: Path)
    requires p != [] && ValidPath(root, p)
    ensures Flat(RemoveAt(root, p)) == Before(root, p) + Behind(root, p)
  {
    LastStep(root, p);
    var pp, i := p[..|p| - 1], p[|p| - 1];
    var parent := At(root, pp);
    var cs := ChildList(parent);
    SetAtFlat(root, pp, WithChildren(parent, Without(cs, i)));
    FlatAllConcat(cs[..i], cs[i + 1..]);
    Halves(Before(root, pp), [parent.own], FlatAll(cs[..i]), FlatAll(cs[i + 1..]), Behind(root, pp));
  }

  lemma Halves<T>(a: seq<T>, b: seq<T>, c: seq<T>, d: seq<T>, e: seq<T>)
    ensures a + (b + (c + d)) + e == (a + (b + c)) + (d + e)
  {
  }

  /** A parent that gets an empty list for missing children keeps its labels. */
  lemma ListedFlat(root: Node, pp: Path)
    requires ValidPath(root, pp)
    ensures Flat(Listed(root, pp)) == Flat(root)
    ensures At(root, pp).children.Children? ==> Listed(root, pp) == root
  {
    var parent := At(root, pp);
    SetAtFlat(root, pp, WithChildren(parent, ChildList(parent)));
    FlatSplit(root, pp);
    assert Flat(WithChildren(parent, ChildList(parent))) == Flat(parent);
    if parent.children.Children? {
      assert WithChildren(parent, ChildList(parent)) == parent;
      SetAtSelf(root, pp);
    }
  }

  /** The tree whose node at `pp` has a list of children, if need be an empty one. */
  function Listed(root: Node, pp: Path): Node
    requires ValidPath(root, pp)
  {
    SetAt(root, pp, WithChildren(At(root, pp), ChildList(At(root, pp))))
  }

  lemma PutReaches(root: Node, pp: Path, i: nat, node: Node)
    requires ValidPath(root, pp) && i <= |ChildList(At(root, pp))|
    ensures var made := PutAt(root, pp, i, node);
      && ValidPath(made, pp) && At(made, pp) == WithChildren(At(root, pp), With(ChildList(At(root, pp)), i, Object(node)))
      && ValidPath(made, pp + [i]) && At(made, pp + [i]) == node
  {
    var grown := WithChildren(At(root, pp), With(ChildList(At(root, pp)), i, Object(node)));
    SetAtSplit(root, pp, grown);
    PathConcat(PutAt(root, pp, i, node), pp, [i]);
    assert [i][1..] == [] && ValidPath(grown, [i]) && At(grown, [i]) == node;
  }

  lemma WithoutWith(cs: seq<Child>, i: nat, c: Child)
    requires i <= |cs|
    ensures Without(With(cs, i, c), i) == cs
  {
  }

  /** Taking away a child just put there gives the old tree back. */
  lemma PutThenRemove(root: Node, pp: Path, i: nat, node: Node)
    requires ValidPath(root, pp) && i <= |ChildList(At(root, pp))|
    ensures ValidPath(PutAt(root, pp, i, node), pp + [i]) && At(PutAt(root, pp, i, node), pp + [i]) == node
    ensures RemoveAt(PutAt(root, pp, i, node), pp + [i]) == Listed(root, pp)
  {
    PutReaches(root, pp, i, node);
    var cs, p := ChildList(At(root, pp)), pp + [i];
    assert p[..|p| - 1] == pp && p[|p| - 1] == i;
    WithoutWith(cs, i, Object(node));
    SetAtTwice(root, pp, WithChildren(At(root, pp), With(cs, i, Object(node))), WithChildren(At(root, pp), cs));
  }

  /** Putting a removed child back gives the old tree back. */
  lemma RemoveThenPut(root: Node, p: Path)
    requires p != [] && ValidPath(root, p)
    ensures var pp, i := p[..|p| - 1], p[|p| - 1];
      ValidPath(RemoveAt(root, p), pp) && i <= |ChildList(At(RemoveAt(root, p), pp))|
      && PutAt(RemoveAt(root, p), pp, i, At(root, p)) == root
  {
    ParentPath(root, p);
    var pp, i := p[..|p| - 1], p[|p| - 1];
    var parent := At(root, pp);
    var cs := ChildList(parent);
    var shrunk := WithChildren(parent, Without(cs, i));
    SetAtSplit(root, pp, shrunk);
    assert With(Without(cs, i), i, cs[i]) == cs;
    assert WithChildren(parent, cs) == parent;
    SetAtTwice(root, pp, shrunk, parent);
    SetAtSelf(root, pp);
  }

  /** A removal deletes exactly the labels of the first subtree with the id; the root stays. */
  lemma RemoveDeletesSubtree(root: Node, id: string) returns (pre: seq<Label>, sub: Node, post: seq<Label>)
    requires Has(Flat(root), id) && root.own.id != id
    ensures Apply(root, Remove(id)).Ok?
    ensures Flat(root) == pre + Flat(sub) + post && sub.own.id == id && !Has(pre, id) && pre != []
    ensures Flat(Apply(root, Remove(id)).value) == pre + post
  {
    PathToFinds(root, id);
    var p := PathTo(root, id).value;
    pre, sub, post := Before(root, p), At(root, p), Behind(root, p);
    FlatSplit(root, p);
    RemoveAtFlat(root, p);
  }

  /** A creation inserts exactly the new labels, somewhere after the parent's own. */
  lemma CreateInsertsSubtree(root: Node, id: string, parentID: string, node: Node, index: Option<nat>)
    returns (pre: seq<Label>, post: seq<Label>)
    requires !Has(Flat(root), id) && Has(Flat(root), parentID)
    ensures Apply(root, Create(id, parentID, node, index)).Ok?
    ensures Flat(root) == pre + post && Has(pre, parentID)
    ensures Flat(Apply(root, Create(id, parentID, node, index)).value) == pre + Flat(node) + post
  {
    PathToFinds(root, id);
    PathToFinds(root, parentID);
    var pp := PathTo(root, parentID).value;
    var i := InsertAt(ChildList(At(root, pp)), index);
    pre, post := PutInsertsSubtree(root, pp, i, node);
  }

  lemma PutInsertsSubtree(root: Node, pp: Path, i: nat, node: Node) returns (pre: seq<Label>, post: seq<Label>)
    requires ValidPath(root, pp) && i <= |ChildList(At(root, pp))|
    ensures Flat(root) == pre + post && Has(pre, At(root, pp).own.id)
    ensures Flat(PutAt(root, pp, i, node)) == pre + Flat(node) + post
  {
    var made, p := PutAt(root, pp, i, node), pp + [i];
    PutThenRemove(root, pp, i, node);
    FlatSplit(made, p);
    RemoveAtFlat(made, p);
    ListedFlat(root, pp);
    pre, post := Before(made, p), Behind(made, p);
    PutBefore(root, pp, i, node);
    assert pre[|Before(root, pp)|] == At(root, pp).own;
  }

  /** What precedes a child just put in place: all that precedes its parent, the parent, and the children before it. */
  lemma PutBefore(root: Node, pp: Path, i: nat, node: Node)
    requires ValidPath(root, pp) && i <= |ChildList(At(root, pp))|
    ensures ValidPath(PutAt(root, pp, i, node), pp + [i])
    ensures Before(PutAt(root, pp, i, node), pp + [i])
      == Before(root, pp) + ([At(root, pp).own] + FlatAll(ChildList(At(root, pp))[..i]))
  {
    var cs, made := ChildList(At(root, pp)), PutAt(root, pp, i, node);
    PutThenRemove(root, pp, i, node);
    LastStep(made, pp + [i]);
    assert (pp + [i])[..|pp|] == pp;
    SetAtSplit(root, pp, WithChildren(At(root, pp), With(cs, i, Object(node))));
    assert With(cs, i, Object(node))[..i] == cs[..i];
  }

  lemma Rearrange(a: seq<Label>, b: seq<Label>, c: seq<Label>)
    ensures DistinctIDs(a + b + c) <==> DistinctIDs(a + c) && DistinctIDs(b) && IDs(b) !! IDs(a + c)
  {
    DistinctConcat(a + b, c);
    DistinctConcat(a, b);
    DistinctConcat(a, c);
    IDsConcat(a, b);
    IDsConcat(a, c);
  }

  /** Ids stay distinct exactly when the created subtree brings only new, distinct ones. */
  lemma CreateKeepsDistinct(root: Node, id: string, parentID: string, node: Node, index: Option<nat>)
    requires !Has(Flat(root), id) && Has(Flat(root), parentID)
    ensures Apply(root, Create(id, parentID, node, index)).Ok?
    ensures DistinctIDs(Flat(Apply(root, Create(id, parentID, node, index)).value)) <==>
      DistinctIDs(Flat(root)) && DistinctIDs(Flat(node)) && IDs(Flat(node)) !! IDs(Flat(root))
  {
    var pre, post := CreateInsertsSubtree(root, id, parentID, node, index);
    Rearrange(pre, Flat(node), post);
  }

  /** Removing a subtree from a tree with distinct ids takes exactly its ids and its nodes away. */
  lemma RemoveAccounting(root: Node, id: string) returns (sub: Node)
    requires DistinctIDs(Flat(root)) && Has(Flat(root), id) && root.own.id != id
    ensures sub.own.id == id && Apply(root, Remove(id)).Ok?
    ensures var r := Apply(root, Remove(id)).value;
      && IDs(Flat(r)) == IDs(Flat(root)) - IDs(Flat(sub)) && |Flat(r)| == |Flat(root)| - |Flat(sub)|
      && DistinctIDs(Flat(r))
  {
    var pre, post;
    pre, sub, post := RemoveDeletesSubtree(root, id);
    Rearrange(pre, Flat(sub), post);
    IDsConcat(pre + Flat(sub), post);
    IDsConcat(pre, Flat(sub));
    IDsConcat(pre, post);
  }

  /** Replacing a subtree in a tree with distinct ids exchanges exactly its ids and its nodes; distinctness is up to the new ids. */
  lemma ReplaceAccounting(root: Node, id: string, node: Node) returns (sub: Node)
    requires DistinctIDs(Flat(root)) && Has(Flat(root), id)
    ensures sub.own.id == id && Apply(root, Replace(id, node)).Ok?
    ensures var r := Apply(root, Replace(id, node)).value;
      && IDs(Flat(r)) == IDs(Flat(root)) - IDs(Flat(sub)) + IDs(Flat(node))
      && |Flat(r)| == |Flat(root)| - |Flat(sub)| + |Flat(node)|
      && (DistinctIDs(Flat(r)) <==> DistinctIDs(Flat(node)) && IDs(Flat(node)) !! IDs(Flat(root)) - IDs(Flat(sub)))
  {
    var pre, post;
    pre, sub, post := ReplaceExchangesSubtree(root, id, node);
    Exchange(pre, Flat(sub), Flat(node), post);
  }

  lemma Exchange(pre: seq<Label>, a: seq<Label>, b: seq<Label>, post: seq<Label>)
    requires DistinctIDs(pre + a + post)
    ensures IDs(pre + b + post) == IDs(pre + a + post) - IDs(a) + IDs(b)
    ensures DistinctIDs(pre + b + post) <==> DistinctIDs(b) && IDs(b) !! IDs(pre + a + post) - IDs(a)
  {
    Rearrange(pre, a, post);
    Rearrange(pre, b, post);
    MiddleIDs(pre, a, post);
    MiddleIDs(pre, b, post);
    assert IDs(pre + a + post) - IDs(a) == IDs(pre + post);
  }

  lemma MiddleIDs(a: seq<Label>, b: seq<Label>, c: seq<Label>)
    ensures IDs(a + b + c) == IDs(a + c) + IDs(b)
  {
    IDsConcat(a + b, c);
    IDsConcat(a, b);
    IDsConcat(a, c);
  }

  // ---- Round trips ----

  /** Removing what was created restores the tree; a parent without children is left with an empty list. */
  lemma CreateThenRemove(root: Node, id: string, parentID: string, node: Node, index: Option<nat>) returns (pp: Path)
    requires !Has(Flat(root), id) && Has(Flat(root), parentID) && node.own.id == id
    ensures FirstAt(root, parentID, pp)
    ensures Apply(root, Create(id, parentID, node, index)).Ok?
    ensures Apply(Apply(root, Create(id, parentID, node, index)).value, Remove(id)) == Ok(Listed(root, pp))
    ensures At(root, pp).children.Children? ==> Listed(root, pp) == root
  {
    var i;
    pp, i := CreatedIsPut(root, id, parentID, node, index);
    ListedFlat(root, pp);
    RemovePut(root, id, pp, i, node);
  }

  lemma CreatedIsPut(root: Node, id: string, parentID: string, node: Node, index: Option<nat>) returns (pp: Path, i: nat)
    requires !Has(Flat(root), id) && Has(Flat(root), parentID)
    ensures FirstAt(root, parentID, pp) && i <= |ChildList(At(root, pp))|
    ensures Apply(root, Create(id, parentID, node, index)) == Ok(PutAt(root, pp, i, node))
  {
    PathToFinds(root, id);
    PathToFinds(root, parentID);
    pp := PathTo(root, parentID).value;
    i := InsertAt(ChildList(At(root, pp)), index);
  }

  lemma RemovePut(root: Node, id: string, pp: Path, i: nat, node: Node)
    requires ValidPath(root, pp) && i <= |ChildList(At(root, pp))| && !Has(Flat(root), id) && node.own.id == id
    ensures Apply(PutAt(root, pp, i, node), Remove(id)) == Ok(Listed(root, pp))
  {
    CreatedIsFirst(root, id, pp, i, node);
    PutThenRemove(root, pp, i, node);
    RemoveAtPath(PutAt(root, pp, i, node), id, pp + [i]);
  }

  /** A child just put into a tree without its id is the first with that id. */
  lemma CreatedIsFirst(root: Node, id: string, pp: Path, i: nat, node: Node)
    requires ValidPath(root, pp) && i <= |ChildList(At(root, pp))| && !Has(Flat(root), id) && node.own.id == id
    ensures PathTo(PutAt(root, pp, i, node), id) == Some(pp + [i])
  {
    var made, p := PutAt(root, pp, i, node), pp + [i];
    PutThenRemove(root, pp, i, node);
    RemoveAtFlat(made, p);
    ListedFlat(root, pp);
    HasConcat(Before(made, p), Behind(made, p), id);
    PathToIs(made, id, p);
  }

  lemma RemoveAtPath(root: Node, id: string, p: Path)
    requires p != [] && ValidPath(root, p) && PathTo(root, id) == Some(p)
    ensures Apply(root, Remove(id)) == Ok(RemoveAt(root, p))
  {
  }

  /** Creating again what was removed, at its old place, restores a tree with distinct ids. */
  lemma RemoveThenCreate(root: Node, id: string) returns (parent: Node, index: nat, sub: Node)
    requires DistinctIDs(Flat(root)) && Has(Flat(root), id) && root.own.id != id
    ensures index < |ChildList(parent)| && ChildList(parent)[index] == Object(sub) && sub.own.id == id
    ensures Apply(root, Remove(id)).Ok?
    ensures Apply(Apply(root, Remove(id)).value, Create(id, parent.own.id, sub, Some(index))) == Ok(root)
  {
    PathToFinds(root, id);
    var p := PathTo(root, id).value;
    ParentPath(root, p);
    var pp, i := p[..|p| - 1], p[|p| - 1];
    parent, index, sub := At(root, pp), i, At(root, p);
    var left := RemoveAt(root, p);
    Vanishes(root, id, p);
    PathToFinds(left, id);
    RemoveKeepsParent(root, p);
    RemoveThenPut(root, p);
    CreateAt(left, id, parent.own.id, pp, i, sub);
    assert Apply(root, Remove(id)) == Ok(left);
  }

  lemma CreateAt(left: Node, id: string, parentID: string, pp: Path, i: nat, node: Node)
    requires PathTo(left, id).None? && PathTo(left, parentID) == Some(pp) && ValidPath(left, pp)
    requires i <= |ChildList(At(left, pp))|
    ensures Apply(left, Create(id, parentID, node, Some(i))) == Ok(PutAt(left, pp, i, node))
  {
  }

  lemma RemoveKeepsParent(root: Node, p: Path)
    requires DistinctIDs(Flat(root)) && p != [] && ValidPath(root, p)
    ensures var pp := p[..|p| - 1];
      ValidPath(root, pp) && PathTo(RemoveAt(root, p), At(root, pp).own.id) == Some(pp)
  {
    ParentPath(root, p);
    var pp, i := p[..|p| - 1], p[|p| - 1];
    var parent := At(root, pp);
    FirstWhenDistinct(root, pp);
    SetAtSplit(root, pp, WithChildren(parent, Without(ChildList(parent), i)));
    PathToIs(RemoveAt(root, p), parent.own.id, pp);
  }

  lemma Vanishes(root: Node, id: string, p: Path)
    requires DistinctIDs(Flat(root)) && p != [] && ValidPath(root, p) && At(root, p).own.id == id
    ensures !Has(Flat(RemoveAt(root, p)), id)
  {
    FlatSplit(root, p);
    RemoveAtFlat(root, p);
    Rearrange(Before(root, p), Flat(At(root, p)), Behind(root, p));
    FlatHas(At(root, p), id);
    NotBoth(Flat(At(root, p)), Before(root, p) + Behind(root, p), id);
  }

  lemma NotBoth(a: seq<Label>, b: seq<Label>, id: string)
    requires IDs(a) !! IDs(b) && Has(a, id)
    ensures !Has(b, id)
  {
    assert id in IDs(a);
    assert forall j :: 0 <= j < |b| ==> b[j].id in IDs(b);
  }

  /** With distinct ids every node is the first with its id. */
  lemma FirstWhenDistinct(n: Node, p: Path)
    requires ValidPath(n, p) && DistinctIDs(Flat(n))
    ensures FirstAt(n, At(n, p).own.id, p)
  {
    FlatSplit(n, p);
    var t := At(n, p).own.id;
    DistinctConcat(Before(n, p) + Flat(At(n, p)), Behind(n, p));
    DistinctConcat(Before(n, p), Flat(At(n, p)));
    FlatHas(At(n, p), t);
    NotBoth(Flat(At(n, p)), Before(n, p), t);
  }

  // ---- When a patch fails, and where it takes effect ----

  /** A patch fails exactly when an id that it needs is not there, an id that it makes is, or it removes the root. */
  lemma PatchFailsExactly(root: Node, patch: Patch)
    ensures var r, found := Apply(root, patch), Has(Flat(root), patch.nodeID);
      && (r == Err(AlreadyExists) <==> patch.Create? && found)
      && (r == Err(ParentNotFound) <==> patch.Create? && !found && !Has(Flat(root), patch.parentID))
      && (r == Err(NotFound) <==> !patch.Create? && !found)
      && (r == Err(RootRemoved) <==> patch.Remove? && root.own.id == patch.nodeID)
      && (r.Err? ==> r.failure in {AlreadyExists, ParentNotFound, NotFound, RootRemoved})
      && (patch.Update? && patch.props.None? && found ==> r == Ok(root))
  {
    PathToFinds(root, patch.nodeID);
    if patch.Create? { PathToFinds(root, patch.parentID); }
    if root.own.id == patch.nodeID { PathToIs(root, patch.nodeID, []); }
  }

  /** Neither path leads through the other's end. */
  predicate Apart(p: Path, q: Path)
    decreases |p|
  {
    p != [] && q != [] && (p[0] != q[0] || Apart(p[1..], q[1..]))
  }

  lemma {:induction false} SetAtElsewhere(n: Node, p: Path, x: Node, q: Path)
    requires ValidPath(n, p) && ValidPath(n, q) && Apart(p, q)
    ensures ValidPath(SetAt(n, p, x), q) && At(SetAt(n, p, x), q) == At(n, q)
    decreases |p|
  {
    if p[0] == q[0] { SetAtElsewhere(ChildList(n)[p[0]].node, p[1..], x, q[1..]); }
  }

  /** A node on the way to a change keeps its label and its number of children. */
  lemma {:induction false} SetAtAbove(n: Node, p: Path, x: Node, k: nat)
    requires ValidPath(n, p) && k < |p|
    ensures ValidPath(n, p[..k]) && ValidPath(SetAt(n, p, x), p[..k])
    ensures At(SetAt(n, p, x), p[..k]).own == At(n, p[..k]).own
    ensures |ChildList(At(SetAt(n, p, x), p[..k]))| == |ChildList(At(n, p[..k]))|
    decreases |p|
  {
    if k > 0 {
      SetAtAbove(ChildList(n)[p[0]].node, p[1..], x, k - 1);
      assert p[..k][1..] == p[1..][..k - 1];
    }
  }

  /** An update or a replacement takes effect at the first node with the id; what stands elsewhere in the tree stands there still. */
  lemma ChangesStayInPlace(root: Node, patch: Patch, q: Path) returns (p: Path)
    requires (patch.Update? && patch.props.Some?) || patch.Replace?
    requires Apply(root, patch).Ok?
    ensures FirstAt(root, patch.nodeID, p)
    ensures var r := Apply(root, patch).value;
      && ValidPath(r, p) && (patch.Replace? ==> At(r, p) == patch.node) && (patch.Update? ==> At(r, p).children == At(root, p).children)
      && (ValidPath(root, q) && Apart(p, q) ==> ValidPath(r, q) && At(r, q) == At(root, q))
      && (q < p ==> ValidPath(root, q) && ValidPath(r, q) && At(r, q).own == At(root, q).own
                    && |ChildList(At(r, q))| == |ChildList(At(root, q))|)
  {
    PathToFinds(root, patch.nodeID);
    p := PathTo(root, patch.nodeID).value;
    var x := if patch.Replace? then patch.node else At(root, p).(own := Merged(At(root, p).own, patch.props.value));
    SetAtSplit(root, p, x);
    if ValidPath(root, q) && Apart(p, q) { SetAtElsewhere(root, p, x, q); }
    if q < p {
      SetAtAbove(root, p, x, |q|);
      assert p[..|q|] == q;
    }
  }

  /** A creation puts the node among its parent's children: at the index if there are that many before it, else last. */
  lemma CreatePlacesChild(root: Node, id: string, parentID: string, node: Node, index: Option<nat>) returns (pp: Path, i: nat)
    requires !Has(Flat(root), id) && Has(Flat(root), parentID)
    ensures FirstAt(root, parentID, pp) && Apply(root, Create(id, parentID, node, index)).Ok?
    ensures var was := ChildList(At(root, pp));
      i == (if index.Some? && index.value <= |was| then index.value else |was|)
    ensures var r, was := Apply(root, Create(id, parentID, node, index)).value, ChildList(At(root, pp));
      ValidPath(r, pp) && At(r, pp).own == At(root, pp).own && ChildList(At(r, pp)) == was[..i] + [Object(node)] + was[i..]
  {
    PathToFinds(root, id);
    PathToFinds(root, parentID);
    pp := PathTo(root, parentID).value;
    i := InsertAt(ChildList(At(root, pp)), index);
    PutReaches(root, pp, i, node);
  }

  // ---- Valid trees, path by path ----

  /** What a node has to be by itself. */
  predicate NodeFits(n: Node) {
    && ValidLabel(n.own) && !n.children.BadChildren? && |ChildList(n)| <= 50
    && forall i :: 0 <= i < |ChildList(n)| ==> ChildList(n)[i].Object?
  }

  ghost predicate FitsEverywhere(n: Node) { forall p :: ValidPath(n, p) ==> NodeFits(At(n, p)) }

  lemma {:induction false} WellFormedChildren(cs: seq<Child>)
    ensures WellFormedAll(cs) <==> forall i :: 0 <= i < |cs| ==> WellFormedChild(cs[i])
    decreases |cs|
  {
    if cs != [] {
      WellFormedChildren(cs[1..]);
      assert forall i :: 0 < i < |cs| ==> cs[i] == cs[1..][i - 1];
      assert forall i :: 0 <= i < |cs| - 1 ==> cs[1..][i] == cs[i + 1];
    }
  }

  lemma {:induction false} TallestChild(cs: seq<Child>) returns (k: nat)
    requires cs != []
    ensures k < |cs| && HeightAll(cs) == HeightChild(cs[k])
    ensures forall i :: 0 <= i < |cs| ==> HeightChild(cs[i]) <= HeightAll(cs)
    decreases |cs|
  {
    k := 0;
    if |cs| > 1 {
      var j := TallestChild(cs[1..]);
      if HeightChild(cs[0]) < HeightChild(cs[1..][j]) { k := j + 1; }
      assert forall i :: 0 < i < |cs| ==> cs[i] == cs[1..][i - 1];
    } else {
      assert cs[1..] == [];
    }
  }

  lemma {:induction false} WellFormedAt(n: Node, p: Path)
    requires WellFormed(n) && ValidPath(n, p)
    ensures WellFormed(At(n, p)) && NodeFits(At(n, p)) && |p| <= Height(n)
    decreases |p|
  {
    WellFormedChildren(ChildList(n));
    if p != [] {
      WellFormedAt(ChildList(n)[p[0]].node, p[1..]);
      var _ := TallestChild(ChildList(n));
    }
    forall i | p == [] && 0 <= i < |ChildList(n)| ensures ChildList(n)[i].Object? { assert WellFormedChild(ChildList(n)[i]); }
  }

  lemma {:induction false} FittingIsWellFormed(n: Node)
    requires FitsEverywhere(n)
    ensures WellFormed(n)
    decreases n
  {
    assert ValidPath(n, []) && At(n, []) == n;
    forall i | 0 <= i < |ChildList(n)| ensures WellFormedChild(ChildList(n)[i]) {
      var c := ChildList(n)[i].node;
      forall p | ValidPath(c, p) ensures NodeFits(At(c, p)) {
        assert ([i] + p)[1..] == p && ValidPath(n, [i] + p) && At(n, [i] + p) == At(c, p);
      }
      FittingIsWellFormed(c);
    }
    WellFormedChildren(ChildList(n));
  }

  lemma {:induction false} DeepestPath(n: Node) returns (p: Path)
    requires WellFormed(n)
    ensures ValidPath(n, p) && |p| == Height(n)
    decreases n
  {
    p := [];
    if ChildList(n) != [] {
      var k := TallestChild(ChildList(n));
      WellFormedChildren(ChildList(n));
      assert WellFormedChild(ChildList(n)[k]);
      var q := DeepestPath(ChildList(n)[k].node);
      p := [k] + q;
      assert p[1..] == q;
    }
  }

  /**
   * A tree is valid exactly when it has at most a hundred nodes with distinct ids, at most twenty images, no path longer than
   * ten, and at the end of each path a valid label and at most fifty children, all of them objects.
   */
  lemma ValidTreeByPaths(n: Node)
    ensures ValidTree(n) <==>
      (|Flat(n)| <= 100 && (forall i, j :: 0 <= i < j < |Flat(n)| ==> Flat(n)[i].id != Flat(n)[j].id)
       && |set i | 0 <= i < |Flat(n)| && Flat(n)[i].typeName == "image"| <= 20
       && (forall p :: ValidPath(n, p) ==> |p| <= 10) && FitsEverywhere(n))
  {
    ImagesAre(Flat(n));
    assert ImagesAt(Flat(n)) == set i | 0 <= i < |Flat(n)| && Flat(n)[i].typeName == "image";
    if ValidTree(n) {
      forall p | ValidPath(n, p) ensures |p| <= 10 && NodeFits(At(n, p)) { WellFormedAt(n, p); }
    }
    if FitsEverywhere(n) && forall p :: ValidPath(n, p) ==> |p| <= 10 {
      FittingIsWellFormed(n);
      var p := DeepestPath(n);
    }
  }

  function ImagesAt(fs: seq<Label>): set<int> { set i | 0 <= i < |fs| && fs[i].typeName == "image" }

  lemma {:induction false} ImagesAre(fs: seq<Label>)
    ensures Images(fs) == |ImagesAt(fs)|
    decreases |fs|
  {
    if fs != [] {
      var n := |fs| - 1;
      ImagesAre(fs[..n]);
      ImagesConcat(fs[..n], [fs[n]]);
      assert fs == fs[..n] + [fs[n]];
      OneMoreImage(fs[..n], fs[n]);
      assert [fs[n]][1..] == [];
    }
  }

  lemma OneMoreImage(fs: seq<Label>, l: Label)
    ensures |ImagesAt(fs + [l])| == |ImagesAt(fs)| + if l.typeName == "image" then 1 else 0
  {
    assert ImagesAt(fs + [l]) == ImagesAt(fs) + if l.typeName == "image" then {|fs|} else {};
  }

  /** A value is refused for its depth, a long text, too many items, or a part that is refused one deeper. */
  lemma ValuesRefusedExactly(v: Json, depth: nat)
    ensures !ValidValue(v, depth) <==>
      || depth > 10 || (v.Text? && |v.chars| > 10000)
      || (v.Items? && (|v.items| > 50 || exists i :: 0 <= i < |v.items| && !ValidValue(v.items[i], depth + 1)))
      || (v.Fields? && exists k :: k in v.fields && !ValidValue(v.fields[k], depth + 1))
  {
  }

  /** A patch is refused exactly for a bad id, a bad prop, a node of another id, a bad parent, or an index past fifty. */
  lemma PatchesRefusedExactly(p: Patch)
    ensures !ValidPatch(p) <==>
      || Blank(p.nodeID) || |p.nodeID| > 128
      || (p.Update? && p.props.Some? && exists k :: k in p.props.value && !ValidValue(p.props.value[k], 1))
      || ((p.Replace? || p.Create?) && p.node.own.id != p.nodeID)
      || (p.Create? && (Blank(p.parentID) || |p.parentID| > 128 || (p.index.Some? && p.index.value > 50)))
  {
  }

  /** A label is refused exactly for one of these. */
  lemma LabelsRefusedExactly(l: Label)
    ensures !ValidLabel(l) <==>
      || Blank(l.id) || |l.id| > 128 || Blank(l.typeName) || |l.typeName| > 64
      || l.props.Malformed? || (l.props.Present? && exists k :: k in l.props.value && !ValidValue(l.props.value[k], 1))
      || (l.typeName == "image" && l.props.Present? && "url" in l.props.value
          && !(l.props.value["url"].Text? && HttpsURL(l.props.value["url"].chars)))
      || l.events.Malformed? || (l.events.Present? && exists k :: k in l.events.value && !ValidEvent(k, l.events.value[k]))
  {
  }
}
