/** Patch batches, and the three mutations of the dynamic content in a message (dynamic_content.go). */
module DynamicBatch {
  import opened Common
  import opened DynamicTree
  import opened DynamicPatch

  const MAX_PATCHES := 100
  const MAX_VERSION := 32

  datatype Fallback = Fallback(typeName: Slot<string>, content: Slot<string>)

  /** A content schema; what is missing or no string reads as None or as the empty string. */
  datatype Schema = Schema(
    id: Option<string>, version: string, source: string, tree: Option<Node>,
    fallback: Slot<Fallback>, metadata: Slot<map<string, Json>>)

  /** A message segment; the schema of dynamic content may be unreadable. */
  datatype Segment = Content(schema: Option<Schema>) | Plain(tag: string, payload: Json)

  datatype Mutation =
    | UpdateContent(messageID: string, contentID: string, patches: seq<Patch>)
    | ReplaceContent(messageID: string, contentID: string, schema: Schema)
    | RemoveContent(messageID: string, contentID: string)

  predicate ValidFallback(f: Slot<Fallback>) {
    !f.Malformed? && (f.Present? ==>
      && !f.value.typeName.Malformed? && !f.value.content.Malformed?
      && (f.value.content.Present? ==> |f.value.content.value| <= MAX_TEXT))
  }

  predicate ValidHeader(s: Schema) {
    && ValidIdentifier(s.id.GetOr("")) && !Blank(s.version) && |s.version| <= MAX_VERSION
    && s.source in {"ai", "user", "system", "plugin", "server"}
    && ValidFallback(s.fallback) && ValidProps(s.metadata)
  }

  predicate ValidSchema(s: Schema) { ValidHeader(s) && s.tree.Some? && ValidTree(s.tree.value) }

  // ---- One batch ----

  /** The patches one after the other; the first that fails ends the batch. */
  ghost function ApplyAll(root: Node, patches: seq<Patch>): Result<Node>
    decreases |patches|
  {
    if patches == [] then Ok(root) else
      var before := ApplyAll(root, patches[..|patches| - 1]);
      if before.Err? then before else Apply(before.value, patches[|patches| - 1])
  }

  lemma {:induction false} FailureStays(root: Node, patches: seq<Patch>, k: nat)
    requires k <= |patches| && ApplyAll(root, patches[..k]).Err?
    ensures ApplyAll(root, patches) == ApplyAll(root, patches[..k])
    decreases |patches|
  {
    if k < |patches| {
      assert patches[..|patches| - 1][..k] == patches[..k];
      FailureStays(root, patches[..|patches| - 1], k);
    } else {
      assert patches[..k] == patches;
    }
  }

  /** An empty batch changes nothing; a batch is its first patch and then the others on what that made. */
  lemma {:induction false} BatchIsInOrder(root: Node, patch: Patch, rest: seq<Patch>)
    ensures ApplyAll(root, []) == Ok(root)
    ensures Apply(root, patch).Err? ==> ApplyAll(root, [patch] + rest) == Apply(root, patch)
    ensures Apply(root, patch).Ok? ==> ApplyAll(root, [patch] + rest) == ApplyAll(Apply(root, patch).value, rest)
    decreases |rest|
  {
    var all := [patch] + rest;
    if rest == [] {
      assert all[..0] == [];
    } else {
      BatchIsInOrder(root, patch, rest[..|rest| - 1]);
      assert all[..|all| - 1] == [patch] + rest[..|rest| - 1];
    }
  }

  /** Exchanging a child in its parent exchanges the subtree. */
  lemma SetAtParent(root: Node, p: Path, x: Node)
    requires p != [] && ValidPath(root, p)
    ensures var pp, i := p[..|p| - 1], p[|p| - 1];
      ValidPath(root, pp) && i < |ChildList(At(root, pp))|
      && SetAt(root, p, x) == SetAt(root, pp, WithChildren(At(root, pp), ChildList(At(root, pp))[i := Object(x)]))
    decreases |p|
  {
    ParentPath(root, p);
    if |p| > 1 {
      SetAtParent(ChildList(root)[p[0]].node, p[1..], x);
      assert p[..|p| - 1][1..] == p[1..][..|p| - 2];
    } else {
      assert p[..|p| - 1] == [] && p[1..] == [];
    }
  }

  /** One patch, found and applied the way the batch loop does it. */
  method ApplyPatch(root: Node, patch: Patch) returns (r: Result<Node>)
    ensures r == Apply(root, patch)
  {
    var found := FindNode(root, patch.nodeID);
    PathToFinds(root, patch.nodeID);
    if patch.Create? {
      if found.Some? { return Err(AlreadyExists); }
      var above := FindNode(root, patch.parentID);
      PathToFinds(root, patch.parentID);
      if above.None? { return Err(ParentNotFound); }
      var list := ChildList(above.value.node);
      var at := if patch.index.Some? && patch.index.value < |list| then patch.index.value else |list|;
      return Ok(SetAt(root, above.value.path, WithChildren(above.value.node, list[..at] + [Object(patch.node)] + list[at..])));
    }
    if found.None? { return Err(NotFound); }
    var Found(node, parent, index, path) := found.value;
    match patch {
      case Update(_, None) => r := Ok(root);
      case Update(_, Some(props)) => r := Ok(SetAt(root, path, node.(own := Merged(node.own, props))));
      case Replace(_, made) =>
        if parent.None? { return Ok(made); }
        ParentPath(root, path);
        SetAtParent(root, path, made);
        var list := ChildList(parent.value);
        r := Ok(SetAt(root, path[..|path| - 1], WithChildren(parent.value, list[index := Object(made)])));
      case Remove(_) =>
        if parent.None? { return Err(RootRemoved); }
        ParentPath(root, path);
        var list := ChildList(parent.value);
        r := Ok(SetAt(root, path[..|path| - 1], WithChildren(parent.value, list[..index] + list[index + 1..])));
    }
  }

  /** A batch is the fold of its patches over the tree; all else in the schema stays. */
  method ApplyPatches(schema: Schema, patches: seq<Patch>) returns (r: Result<Schema>)
    ensures schema.tree.None? ==> r == Err(TreeMissing)
    ensures schema.tree.Some? ==> match ApplyAll(schema.tree.value, patches)
      case Err(f) => r == Err(f)
      case Ok(tree) => r == Ok(schema.(tree := Some(tree)))
  {
    if schema.tree.None? { return Err(TreeMissing); }
    var root := schema.tree.value;
    for i := 0 to |patches|
      invariant ApplyAll(schema.tree.value, patches[..i]) == Ok(root)
    {
      assert patches[..i + 1][..i] == patches[..i];
      var next := ApplyPatch(root, patches[i]);
      if next.Err? {
        FailureStays(schema.tree.value, patches, i + 1);
        return Err(next.failure);
      }
      root := next.value;
    }
    assert patches[..|patches|] == patches;
    r := Ok(schema.(tree := Some(root)));
  }

  // ---- Where the ids of a batch come from ----

  function Brought(p: Patch): set<string> {
    if p.Replace? || p.Create? then IDs(Flat(p.node)) else {}
  }

  function BroughtByAll(patches: seq<Patch>): set<string> {
    set i, id | 0 <= i < |patches| && id in Brought(patches[i]) :: id
  }

  lemma PatchIDs(root: Node, p: Patch)
    requires Apply(root, p).Ok?
    ensures IDs(Flat(Apply(root, p).value)) <= IDs(Flat(root)) + Brought(p)
  {
    PathToFinds(root, p.nodeID);
    match p {
      case Update(id, props) =>
        if props.Some? {
          var i, l := UpdateChangesProps(root, id, props.value);
          SameIDs(Flat(root), i, l);
        }
      case Replace(id, node) =>
        var pre, sub, post := ReplaceExchangesSubtree(root, id, node);
        ThreeIDs(pre, Flat(sub), post);
        ThreeIDs(pre, Flat(node), post);
      case Remove(id) =>
        RootIsFound(root, id);
        var pre, sub, post := RemoveDeletesSubtree(root, id);
        ThreeIDs(pre, Flat(sub), post);
        IDsConcat(pre, post);
      case Create(id, parentID, node, index) =>
        PathToFinds(root, parentID);
        var pre, post := CreateInsertsSubtree(root, id, parentID, node, index);
        IDsConcat(pre, post);
        ThreeIDs(pre, Flat(node), post);
    }
  }

  lemma RootIsFound(root: Node, id: string)
    ensures root.own.id == id ==> PathTo(root, id) == Some([])
  {
    if root.own.id == id { PathToIs(root, id, []); }
  }

  lemma ThreeIDs(a: seq<Label>, b: seq<Label>, c: seq<Label>)
    ensures IDs(a + b + c) == IDs(a) + IDs(b) + IDs(c)
  {
    IDsConcat(a + b, c);
    IDsConcat(a, b);
  }

  lemma SameIDs(fs: seq<Label>, i: nat, l: Label)
    requires i < |fs| && l.id == fs[i].id
    ensures IDs(fs[i := l]) <= IDs(fs)
  {
  }

  /** No id appears from nowhere: each was in the tree or came with a patch. */
  lemma {:induction false} BatchIDsAreSourced(root: Node, patches: seq<Patch>)
    requires ApplyAll(root, patches).Ok?
    ensures IDs(Flat(ApplyAll(root, patches).value)) <= IDs(Flat(root)) + BroughtByAll(patches)
    decreases |patches|
  {
    if patches != [] {
      var init, last := patches[..|patches| - 1], patches[|patches| - 1];
      BatchIDsAreSourced(root, init);
      PatchIDs(ApplyAll(root, init).value, last);
      assert BroughtByAll(init) <= BroughtByAll(patches) by {
        forall id | id in BroughtByAll(init) ensures id in BroughtByAll(patches) {
          var i :| 0 <= i < |init| && id in Brought(init[i]);
          assert patches[i] == init[i];
        }
      }
    }
  }

  // ---- Mutations of a message ----

  predicate Matches(s: Segment, id: string) {
    s.Content? && s.schema.Some? && s.schema.value.id == Some(id)
  }

  predicate Unread(s: Segment) { s.Content? && s.schema.None? }

  predicate AllRead(segments: seq<Segment>) { forall k :: 0 <= k < |segments| ==> !Unread(segments[k]) }

  predicate OnlyMatch(segments: seq<Segment>, id: string, i: nat) {
    i < |segments| && forall k :: 0 <= k < |segments| ==> (Matches(segments[k], id) <==> k == i)
  }

  /** Two matches before any unreadable segment. */
  ghost predicate TwoMatches(segments: seq<Segment>, id: string) {
    exists i, j :: 0 <= i < j < |segments| && Matches(segments[i], id) && Matches(segments[j], id) && AllRead(segments[..j])
  }

  /** Finds the one content with the id; each failure has its exact cause. */
  method ContentIndex(segments: seq<Segment>, id: string) returns (r: Result<nat>)
    ensures r.Ok? ==> AllRead(segments) && OnlyMatch(segments, id, r.value)
    ensures r.Err? ==> r.failure in {Unreadable, Ambiguous, ContentNotFound}
    ensures r == Err(Ambiguous) <==> TwoMatches(segments, id)
    ensures r == Err(ContentNotFound) <==> AllRead(segments) && forall k :: 0 <= k < |segments| ==> !Matches(segments[k], id)
    ensures r == Err(Unreadable) <==> !AllRead(segments) && !TwoMatches(segments, id)
  {
    var matched: Option<nat> := None;
    for i := 0 to |segments|
      invariant forall k :: 0 <= k < i ==> !Unread(segments[k])
      invariant matched.None? ==> forall k :: 0 <= k < i ==> !Matches(segments[k], id)
      invariant matched.Some? ==> matched.value < i && forall k :: 0 <= k < i ==> (Matches(segments[k], id) <==> k == matched.value)
    {
      if segments[i].Plain? { continue; }
      if segments[i].schema.None? {
        assert !TwoMatches(segments, id) by {
          if a, b :| 0 <= a < b < |segments| && Matches(segments[a], id) && Matches(segments[b], id) && AllRead(segments[..b]) {
            assert i < b ==> Unread(segments[..b][i]);
            assert false;
          }
        }
        return Err(Unreadable);
      }
      if segments[i].schema.value.id != Some(id) { continue; }
      if matched.Some? {
        assert Matches(segments[matched.value], id) && Matches(segments[i], id) && AllRead(segments[..i]);
        return Err(Ambiguous);
      }
      matched := Some(i);
    }
    assert matched.Some? ==> Matches(segments[matched.value], id);
    r := if matched.None? then Err(ContentNotFound) else Ok(matched.value);
  }

  /** What parsing demands of a mutation. */
  predicate ValidMutation(m: Mutation) {
    && ValidIdentifier(m.messageID) && ValidIdentifier(m.contentID)
    && (m.UpdateContent? ==> 0 < |m.patches| <= MAX_PATCHES && forall i :: 0 <= i < |m.patches| ==> ValidPatch(m.patches[i]))
    && (m.ReplaceContent? ==> m.schema.id == Some(m.contentID) && ValidSchema(m.schema))
  }

  /** A mutation is refused exactly for a bad id, no or too many patches or a bad one, or a schema of another id or a bad one. */
  lemma MutationsRefusedExactly(m: Mutation)
    ensures !ValidMutation(m) <==>
      || Blank(m.messageID) || |m.messageID| > 128 || Blank(m.contentID) || |m.contentID| > 128
      || (m.UpdateContent? && (m.patches == [] || |m.patches| > 100 || exists i :: 0 <= i < |m.patches| && !ValidPatch(m.patches[i])))
      || (m.ReplaceContent? && (m.schema.id != Some(m.contentID) || !ValidSchema(m.schema)))
  {
  }

  /** A schema is refused exactly for its id, its version, its source, its fallback, its metadata or its tree. */
  lemma SchemasRefusedExactly(s: Schema)
    ensures !ValidSchema(s) <==>
      || s.id.None? || Blank(s.id.value) || |s.id.value| > 128 || Blank(s.version) || |s.version| > 32
      || !(s.source in {"ai", "user", "system", "plugin", "server"}) || !ValidFallback(s.fallback)
      || s.metadata.Malformed? || (s.metadata.Present? && exists k :: k in s.metadata.value && !ValidValue(s.metadata.value[k], 1))
      || s.tree.None? || !ValidTree(s.tree.value)
  {
  }

  /** Every content of a message has a valid schema. */
  predicate ValidMessage(segments: seq<Segment>) {
    forall i :: 0 <= i < |segments| && segments[i].Content? ==> segments[i].schema.Some? && ValidSchema(segments[i].schema.value)
  }

  /** No two contents share an id. */
  predicate OwnIDs(segments: seq<Segment>)
    requires ValidMessage(segments)
  {
    forall i, j :: 0 <= i < j < |segments| && segments[i].Content? && segments[j].Content? ==>
      segments[i].schema.value.id != segments[j].schema.value.id
  }

  /** The schema that a mutation leaves in place of `s`; a removed content leaves none. */
  ghost function Outcome(s: Schema, m: Mutation): Result<Option<Schema>> {
    match m
    case RemoveContent(_, _) => Ok(None)
    case ReplaceContent(_, _, made) => Ok(Some(made))
    case UpdateContent(_, _, patches) =>
      if s.tree.None? then Err(TreeMissing) else
        match ApplyAll(s.tree.value, patches)
        case Err(f) => Err(f)
        case Ok(tree) =>
          var made := s.(tree := Some(tree));
          if ValidSchema(made) then Ok(Some(made)) else Err(InvalidSchema)
  }

  /** A removal leaves nothing, a replacement the new schema, an update the old one with its tree patched, if that is valid. */
  lemma OutcomeExactly(s: Schema, m: Mutation)
    ensures var r := Outcome(s, m);
      match m
      case RemoveContent(_, _) => r == Ok(None)
      case ReplaceContent(_, _, made) => r == Ok(Some(made))
      case UpdateContent(_, _, patches) =>
        && (r == Err(TreeMissing) <==> s.tree.None?)
        && (r.Ok? ==> r.value.Some? && ValidSchema(r.value.value)
                      && s.tree.Some? && ApplyAll(s.tree.value, patches) == Ok(r.value.value.tree.value)
                      && r.value.value.id == s.id && r.value.value.version == s.version && r.value.value.source == s.source
                      && r.value.value.fallback == s.fallback && r.value.value.metadata == s.metadata)
        && (r == Err(InvalidSchema) <==>
              (s.tree.Some? && ApplyAll(s.tree.value, patches).Ok?
               && !ValidSchema(s.(tree := Some(ApplyAll(s.tree.value, patches).value)))))
        && (s.tree.Some? && ApplyAll(s.tree.value, patches).Err? ==> r == Err(ApplyAll(s.tree.value, patches).failure))
  {
    if m.UpdateContent? && s.tree.Some? { BatchFailures(s.tree.value, m.patches); }
  }

  lemma {:induction false} BatchFailures(root: Node, patches: seq<Patch>)
    ensures ApplyAll(root, patches).Err? ==>
      ApplyAll(root, patches).failure in {AlreadyExists, ParentNotFound, NotFound, RootRemoved}
    decreases |patches|
  {
    if patches != [] {
      BatchFailures(root, patches[..|patches| - 1]);
      var before := ApplyAll(root, patches[..|patches| - 1]);
      if before.Ok? { PatchFailsExactly(before.value, patches[|patches| - 1]); }
    }
  }

  /** The other segments stay, in their order. */
  lemma SettledIs(segments: seq<Segment>, i: nat, made: Option<Schema>)
    requires i < |segments|
    ensures var r := Settled(segments, i, made);
      && (made.Some? ==> |r| == |segments| && r[i] == Content(made))
      && (made.None? ==> |r| == |segments| - 1)
      && (forall k :: 0 <= k < i ==> r[k] == segments[k])
      && (forall k :: i < k < |segments| ==> (if made.Some? then r[k] else r[k - 1]) == segments[k])
  {
  }

  /** The message after the content at `i` became `made`. */
  function Settled(segments: seq<Segment>, i: nat, made: Option<Schema>): seq<Segment>
    requires i < |segments|
  {
    if made.Some? then segments[i := Content(made)] else segments[..i] + segments[i + 1..]
  }

  /**
   * A mutation succeeds exactly when it is well formed, its content is there once among readable ones and the outcome
   * is a valid schema; then only that segment changes, and a valid message stays valid.
   */
  method Mutate(segments: seq<Segment>, m: Mutation) returns (r: Result<seq<Segment>>)
    ensures r.Ok? <==> (
      && ValidMutation(m) && AllRead(segments)
      && exists i: nat :: OnlyMatch(segments, m.contentID, i) && Outcome(segments[i].schema.value, m).Ok?)
    ensures forall i: nat :: r.Ok? && OnlyMatch(segments, m.contentID, i) ==>
      r.value == Settled(segments, i, Outcome(segments[i].schema.value, m).value)
    ensures !ValidMutation(m) <==> r == Err(BadMutation)
    ensures ValidMutation(m) && TwoMatches(segments, m.contentID) <==> r == Err(Ambiguous)
    ensures r == Err(ContentNotFound) <==>
      ValidMutation(m) && AllRead(segments) && forall k :: 0 <= k < |segments| ==> !Matches(segments[k], m.contentID)
    ensures r == Err(Unreadable) <==> ValidMutation(m) && !AllRead(segments) && !TwoMatches(segments, m.contentID)
    ensures forall i: nat :: ValidMutation(m) && AllRead(segments) && OnlyMatch(segments, m.contentID, i) && r.Err? ==>
      r == Err(Outcome(segments[i].schema.value, m).failure)
    ensures r.Ok? && ValidMessage(segments) ==> ValidMessage(r.value) && (OwnIDs(segments) ==> OwnIDs(r.value))
  {
    if !ValidMutation(m) { return Err(BadMutation); }
    var at := ContentIndex(segments, m.contentID);
    if at.Err? {
      assert forall i: nat :: OnlyMatch(segments, m.contentID, i) ==> Matches(segments[i], m.contentID);
      if at.failure == Ambiguous { TwoIsNotOne(segments, m.contentID); }
      return Err(at.failure);
    }
    var i := at.value;
    assert Matches(segments[i], m.contentID);
    assert forall j: nat :: OnlyMatch(segments, m.contentID, j) ==> j == i;
    match m {
      case UpdateContent(_, _, patches) =>
        var updated := ApplyPatches(segments[i].schema.value, patches);
        if updated.Err? {
          if segments[i].schema.value.tree.Some? { BatchFailures(segments[i].schema.value.tree.value, patches); }
          return Err(updated.failure);
        }
        var accepted := ValidHeader(updated.value);
        if accepted && updated.value.tree.Some? { accepted := ValidateTree(updated.value.tree.value); }
        if !accepted { return Err(InvalidSchema); }
        r := Ok(segments[i := Content(Some(updated.value))]);
        SettledIsValid(segments, i, Some(updated.value));
      case ReplaceContent(_, _, made) =>
        r := Ok(segments[i := Content(Some(made))]);
        SettledIsValid(segments, i, Some(made));
      case RemoveContent(_, _) =>
        r := Ok(segments[..i] + segments[i + 1..]);
        SettledIsValid(segments, i, None);
    }
  }

  lemma TwoIsNotOne(segments: seq<Segment>, id: string)
    requires TwoMatches(segments, id)
    ensures forall i: nat :: !OnlyMatch(segments, id, i)
  {
  }

  lemma SettledIsValid(segments: seq<Segment>, i: nat, made: Option<Schema>)
    requires i < |segments| && segments[i].Content? && segments[i].schema.Some?
    requires made.Some? ==> ValidSchema(made.value) && made.value.id == segments[i].schema.value.id
    ensures var now := Settled(segments, i, made);
      ValidMessage(segments) ==> ValidMessage(now) && (OwnIDs(segments) ==> OwnIDs(now))
  {
  }
}
