/**
  * Archived documents: the path test of `Archive::validate` against the tree it stands for. There is
  * no cycle check in the validator; a path that must extend the parent's path leaves no room for one.
  */
module Documents {
  import opened Options
  import opened Uuids
  import opened Sequences
  import opened Text

  /** `project` is `None` for a personal wiki document. */
  datatype Document = Document(id: Uuid, parent: Option<Uuid>, project: Option<Uuid>, path: string)

  const MAX_DEPTH := 20

  // ---------------------------------------------------------------- meaning

  ghost predicate UniqueIds(docs: seq<Document>) {
    forall i, j | 0 <= i < j < |docs| :: docs[i].id != docs[j].id
  }

  /** From `d` through its ancestors to a document without a parent, all on the same side (project or wiki). */
  ghost predicate IsLineage(docs: seq<Document>, d: Document, line: seq<Document>) {
    && line != [] && line[0] == d
    && (forall k | 0 <= k < |line| :: line[k] in docs && line[k].project == d.project)
    && (forall k | 0 < k < |line| :: line[k - 1].parent == Some(line[k].id))
    && line[|line| - 1].parent == None
  }

  /** The labels of a lineage, topmost first. */
  ghost function Labels(line: seq<Document>): (labels: seq<string>)
    ensures |labels| == |line|
  {
    if line == [] then [] else Labels(line[1..]) + [Simple(line[0].id)]
  }

  /** `d` hangs below a top-level document by at most twenty labels, and its path spells them out. */
  ghost predicate Placed(docs: seq<Document>, d: Document) {
    exists line :: PlacedBy(docs, d, line)
  }

  ghost predicate PlacedBy(docs: seq<Document>, d: Document, line: seq<Document>) {
    IsLineage(docs, d, line) && |line| <= MAX_DEPTH && d.path == Join(Labels(line), '.')
  }

  ghost predicate TopLevel(d: Document) {
    d.project.Some? && d.parent.None?
  }

  /** Project documents are one tree under `root`, wiki documents a forest of their own. */
  ghost predicate IsForest(docs: seq<Document>, project: Uuid, root: Option<Uuid>) {
    && UniqueIds(docs)
    && (forall d | d in docs :: d.project.None? || d.project == Some(project))
    && (forall d | d in docs :: Placed(docs, d))
    && RootRule(docs, root)
  }

  /** One top-level project document, the project's root document. */
  ghost predicate RootRule(docs: seq<Document>, root: Option<Uuid>) {
    exists r :: OnlyTop(docs, r) && root == Some(r.id)
  }

  ghost predicate OnlyTop(docs: seq<Document>, r: Document) {
    r in docs && TopLevel(r) && forall d | d in docs && TopLevel(d) :: d == r
  }

  // ---------------------------------------------------------------- the check

  function Find(docs: seq<Document>, id: Uuid): (r: Option<Document>)
    ensures r.Some? ==> r.value in docs && r.value.id == id
    ensures r.None? ==> forall d | d in docs :: d.id != id
  {
    if docs == [] then None
    else if docs[0].id == id then Some(docs[0])
    else Find(docs[1..], id)
  }

  /** The per-document test: affiliation, parent on the same side, the path extends the parent's, depth. */
  predicate DocumentOk(docs: seq<Document>, project: Uuid, d: Document) {
    LinkOk(docs, project, d) && DepthOk(d)
  }

  predicate LinkOk(docs: seq<Document>, project: Uuid, d: Document) {
    && (d.project.None? || d.project == Some(project))
    && match d.parent
       case None => d.path == Simple(d.id)
       case Some(p) =>
         match Find(docs, p)
         case None => false
         case Some(parent) =>
           && parent.project.None? == d.project.None?
           && d.path == parent.path + "." + Simple(d.id)
  }

  predicate DepthOk(d: Document) {
    |Split(d.path, '.')| <= MAX_DEPTH
  }

  lemma {:induction false} FindUnique(docs: seq<Document>, d: Document)
    requires UniqueIds(docs) && d in docs
    ensures Find(docs, d.id) == Some(d)
  {
    var e := Find(docs, d.id).value;
    var i :| 0 <= i < |docs| && docs[i] == d;
    var j :| 0 <= j < |docs| && docs[j] == e;
    assert i == j;
  }

  // ---------------------------------------------------------------- accepted means tree

  lemma {:induction false} LabelsFree(line: seq<Document>)
    ensures Free(Labels(line), '.')
  {
    if line != [] {
      LabelsFree(line[1..]);
      SimpleLabel(line[0].id, line[0].id);
    }
  }

  /** A path of joined labels splits into as many parts as the lineage has documents. */
  lemma {:induction false} PathDepth(line: seq<Document>)
    requires line != []
    ensures |Split(Join(Labels(line), '.'), '.')| == |line|
  {
    LabelsFree(line);
    SplitOfJoin(Labels(line), '.');
  }

  lemma {:induction false} PathExtends(d: Document, line: seq<Document>)
    requires line != []
    ensures Join(Labels([d] + line), '.') == Join(Labels(line), '.') + "." + Simple(d.id)
  {
    assert ([d] + line)[1..] == line;
    JoinSnoc(Labels(line), Simple(d.id), '.');
  }

  lemma SingleLabel(d: Document)
    ensures Join(Labels([d]), '.') == Simple(d.id)
  {
    assert Labels([d][1..]) == [];
    assert Labels([d]) == [Simple(d.id)];
  }

  lemma LineageCons(docs: seq<Document>, d: Document, p: Document, above: seq<Document>)
    requires IsLineage(docs, p, above) && d in docs && d.parent == Some(p.id) && d.project == p.project
    ensures IsLineage(docs, d, [d] + above)
  {
    var line := [d] + above;
    forall k | 0 < k < |line|
      ensures line[k - 1].parent == Some(line[k].id)
    {
      if k > 1 {
        assert line[k - 1] == above[k - 2] && line[k] == above[k - 1];
      }
    }
  }

  /** Going to the parent shortens the path, so the way up ends. */
  lemma {:induction false} LineageExists(docs: seq<Document>, project: Uuid, d: Document) returns (line: seq<Document>)
    requires d in docs && forall e | e in docs :: LinkOk(docs, project, e)
    ensures IsLineage(docs, d, line) && d.path == Join(Labels(line), '.')
    decreases |d.path|
  {
    assert LinkOk(docs, project, d);
    if d.parent == None {
      line := [d];
      SingleLabel(d);
    } else {
      var p := Find(docs, d.parent.value).value;
      assert LinkOk(docs, project, p);
      var above := LineageExists(docs, project, p);
      line := [d] + above;
      LineageCons(docs, d, p, above);
      PathExtends(d, above);
    }
  }

  // ---------------------------------------------------------------- tree means accepted

  lemma {:induction false} LineageUnique(docs: seq<Document>, d: Document, a: seq<Document>, b: seq<Document>)
    requires UniqueIds(docs) && IsLineage(docs, d, a) && IsLineage(docs, d, b)
    ensures a == b
    decreases |a|
  {
    ParentOfFirst(docs, d, a);
    ParentOfFirst(docs, d, b);
    if |a| > 1 {
      FindUnique(docs, a[1]);
      FindUnique(docs, b[1]);
      LineageTail(docs, d, a);
      LineageTail(docs, d, b);
      LineageUnique(docs, a[1], a[1..], b[1..]);
      assert a == [d] + a[1..] && b == [d] + b[1..];
    }
  }

  lemma ParentOfFirst(docs: seq<Document>, d: Document, line: seq<Document>)
    requires IsLineage(docs, d, line)
    ensures d.parent == if |line| == 1 then None else Some(line[1].id)
  {
    if |line| > 1 {
      assert line[1 - 1].parent == Some(line[1].id);
    }
  }

  lemma LineageTail(docs: seq<Document>, d: Document, line: seq<Document>)
    requires IsLineage(docs, d, line) && |line| > 1
    ensures IsLineage(docs, line[1], line[1..])
    ensures d.parent == Some(line[1].id)
  {
    var rest := line[1..];
    assert line[1 - 1].parent == Some(line[1].id);
    forall k | 0 < k < |rest|
      ensures rest[k - 1].parent == Some(rest[k].id)
    {
      assert rest[k - 1] == line[k + 1 - 1] && rest[k] == line[k + 1];
    }
  }

  lemma PlacedIsOk(docs: seq<Document>, project: Uuid, d: Document)
    requires UniqueIds(docs) && d in docs && (forall e | e in docs :: Placed(docs, e))
    requires d.project.None? || d.project == Some(project)
    ensures DocumentOk(docs, project, d)
  {
    hide Join, Labels, Split, Simple, UniqueIds;
    assert Placed(docs, d);
    var line :| PlacedBy(docs, d, line);
    PlacedDepth(docs, d, line);
    ParentOfFirst(docs, d, line);
    if |line| == 1 {
      assert line == [d];
      SingleLabel(d);
    } else {
      assert Placed(docs, line[1]);
      var other :| PlacedBy(docs, line[1], other);
      ChildIsLinked(docs, project, d, line, other);
    }
  }

  lemma PlacedDepth(docs: seq<Document>, d: Document, line: seq<Document>)
    requires PlacedBy(docs, d, line)
    ensures DepthOk(d)
  {
    PathDepth(line);
  }

  lemma ChildIsLinked(docs: seq<Document>, project: Uuid, d: Document, line: seq<Document>, other: seq<Document>)
    requires UniqueIds(docs) && PlacedBy(docs, d, line) && |line| > 1 && PlacedBy(docs, line[1], other)
    requires d.project.None? || d.project == Some(project)
    ensures LinkOk(docs, project, d)
  {
    PathOfChild(docs, d, line, line[1], other);
    ParentOfFirst(docs, d, line);
    FindUnique(docs, line[1]);
  }

  lemma {:induction false} PathOfChild(docs: seq<Document>, d: Document, line: seq<Document>, p: Document, other: seq<Document>)
    requires UniqueIds(docs) && IsLineage(docs, d, line) && |line| > 1 && p == line[1] && IsLineage(docs, p, other)
    ensures Join(Labels(line), '.') == Join(Labels(other), '.') + "." + Simple(d.id)
  {
    LineageTail(docs, d, line);
    LineageUnique(docs, p, line[1..], other);
    PathExtends(d, other);
    assert line == [d] + other;
  }

  // ---------------------------------------------------------------- the validator's loops

  /** Exactly one top-level project document, and it is the project's root document. */
  method SingleRoot(docs: seq<Document>, root: Option<Uuid>) returns (ok: bool)
    requires UniqueIds(docs)
    ensures ok <==> RootRule(docs, root)
  {
    var count := 0;
    var named := false;
    ghost var tops: seq<nat> := [];
    for k := 0 to |docs|
      invariant count == |tops|
      invariant forall i | 0 <= i < |tops| :: tops[i] < k && TopLevel(docs[tops[i]])
      invariant forall i, j | 0 <= i < j < |tops| :: tops[i] < tops[j]
      invariant forall i | 0 <= i < k && TopLevel(docs[i]) :: i in tops
      invariant named <==> exists i :: 0 <= i < k && TopLevel(docs[i]) && root == Some(docs[i].id)
    {
      if docs[k].project.Some? && docs[k].parent.None? {
        count := count + 1;
        tops := tops + [k];
        named := named || root == Some(docs[k].id);
      }
    }
    OnlyTopIsCounted(docs, root, tops);
    return count == 1 && named;
  }

  lemma OnlyTopIsCounted(docs: seq<Document>, root: Option<Uuid>, tops: seq<nat>)
    requires UniqueIds(docs)
    requires forall i | 0 <= i < |tops| :: tops[i] < |docs| && TopLevel(docs[tops[i]])
    requires forall i, j | 0 <= i < j < |tops| :: tops[i] < tops[j]
    requires forall i | 0 <= i < |docs| && TopLevel(docs[i]) :: i in tops
    ensures RootRule(docs, root) <==> |tops| == 1 && exists i :: 0 <= i < |docs| && TopLevel(docs[i]) && root == Some(docs[i].id)
  {
    assert |tops| > 1 ==> tops[0] < tops[1];
    if |tops| == 1 {
      var r := docs[tops[0]];
      forall d | d in docs && TopLevel(d)
        ensures d == r
      {
        var i :| 0 <= i < |docs| && docs[i] == d;
        assert i in tops;
      }
      assert OnlyTop(docs, r);
    }
    if RootRule(docs, root) {
      var r :| OnlyTop(docs, r) && root == Some(r.id);
      var i :| 0 <= i < |docs| && docs[i] == r;
      assert i in tops;
      forall n | 0 <= n < |tops|
        ensures tops[n] == i
      {
        assert docs[tops[n]] in docs;
        assert docs[tops[n]].id == docs[i].id;
      }
    }
  }

  /**
    * The archive's document checks accept exactly the forests: one tree of project documents under
    * the project root and separate wiki trees, each path being the joined labels of the lineage.
    */
  method ValidateDocuments(docs: seq<Document>, project: Uuid, root: Option<Uuid>) returns (ok: bool)
    ensures ok <==> IsForest(docs, project, root)
  {
    hide DocumentOk, Placed, RootRule, UniqueIds;
    var unique := KeysDiffer(docs, (d: Document) => d.id);
    UniqueMeans(docs);
    if !unique {
      return false;
    }
    var rooted := SingleRoot(docs, root);
    if !rooted {
      return false;
    }
    for k := 0 to |docs|
      invariant forall i | 0 <= i < k :: DocumentOk(docs, project, docs[i])
    {
      if !DocumentOk(docs, project, docs[k]) {
        RefusedIsNotPlaced(docs, project, docs[k]);
        return false;
      }
    }
    AcceptedIsForest(docs, project);
    return true;
  }

  lemma UniqueMeans(docs: seq<Document>)
    ensures UniqueIds(docs) <==> forall i, j | 0 <= i < j < |docs| :: docs[i].id != docs[j].id
  {
  }

  lemma RefusedIsNotPlaced(docs: seq<Document>, project: Uuid, d: Document)
    requires UniqueIds(docs) && d in docs && !DocumentOk(docs, project, d)
    ensures !((d.project.None? || d.project == Some(project)) && forall e | e in docs :: Placed(docs, e))
  {
    if (d.project.None? || d.project == Some(project)) && forall e | e in docs :: Placed(docs, e) {
      PlacedIsOk(docs, project, d);
    }
  }

  lemma AcceptedIsForest(docs: seq<Document>, project: Uuid)
    requires UniqueIds(docs) && forall e | e in docs :: DocumentOk(docs, project, e)
    ensures forall d | d in docs :: Placed(docs, d)
    ensures forall d | d in docs :: d.project.None? || d.project == Some(project)
  {
    forall d | d in docs
      ensures Placed(docs, d)
    {
      var line := LineageExists(docs, project, d);
      PathDepth(line);
      assert DepthOk(d);
      assert PlacedBy(docs, d, line);
    }
  }

  /** In a forest every project document descends from the root, and no document from itself. */
  lemma OneTree(docs: seq<Document>, project: Uuid, root: Option<Uuid>, d: Document, line: seq<Document>)
    requires IsForest(docs, project, root) && d in docs && IsLineage(docs, d, line)
    ensures d.project.Some? ==> root == Some(line[|line| - 1].id)
    ensures d.project.None? ==> forall k | 0 <= k < |line| :: root != Some(line[k].id)
    ensures forall k | 0 < k < |line| :: line[k].id != d.id
  {
    hide Placed, DocumentOk, Join, Labels;
    var r :| OnlyTop(docs, r) && root == Some(r.id);
    if d.project.Some? {
      assert TopLevel(line[|line| - 1]);
    } else {
      forall k | 0 <= k < |line|
        ensures root != Some(line[k].id)
      {
        FindUnique(docs, r);
        FindUnique(docs, line[k]);
      }
    }
    forall k | 0 < k < |line|
      ensures line[k].id != d.id
    {
      NotOwnAncestor(docs, d, line, k);
    }
  }

  lemma NotOwnAncestor(docs: seq<Document>, d: Document, line: seq<Document>, k: nat)
    requires UniqueIds(docs) && d in docs && IsLineage(docs, d, line) && 0 < k < |line|
    ensures line[k].id != d.id
  {
    if line[k].id == d.id {
      FindUnique(docs, line[k]);
      FindUnique(docs, d);
      LineageSuffix(docs, d, line, k);
      LineageUnique(docs, d, line, line[k..]);
    }
  }

  lemma LineageSuffix(docs: seq<Document>, d: Document, line: seq<Document>, k: nat)
    requires IsLineage(docs, d, line) && k < |line| && line[k] == d
    ensures IsLineage(docs, d, line[k..])
  {
    var rest := line[k..];
    forall i | 0 < i < |rest|
      ensures rest[i - 1].parent == Some(rest[i].id)
    {
      assert rest[i - 1] == line[k + i - 1] && rest[i] == line[k + i];
    }
  }
}
