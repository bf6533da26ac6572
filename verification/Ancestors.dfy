/** Walks along parent links: task ancestors and the wiki closure of an archive. */
module Ancestors {
  import opened Options
  import opened Uuids
  import opened Sequences

  /** The identity and parent of an archived task or document. */
  datatype Node = Node(id: Uuid, parent: Option<Uuid>)

  /** `iter().find(|n| n.id == id)`: the first row with the id. */
  function Find(nodes: seq<Node>, id: Uuid): (r: Option<Node>)
    ensures r.Some? ==> r.value in nodes && r.value.id == id
    ensures r.None? ==> forall n | n in nodes :: n.id != id
  {
    if nodes == [] then None
    else if nodes[0].id == id then Some(nodes[0])
    else Find(nodes[1..], id)
  }

  function Parent(nodes: seq<Node>, id: Uuid): Option<Uuid> {
    match Find(nodes, id)
    case None => None
    case Some(n) => n.parent
  }

  function Ids(nodes: seq<Node>): set<Uuid> {
    set n | n in nodes :: n.id
  }

  /** Each listed id is the parent of the one before it. */
  ghost predicate IsPath(nodes: seq<Node>, path: seq<Uuid>) {
    path != [] && forall k | 0 < k < |path| :: Parent(nodes, path[k - 1]) == Some(path[k])
  }

  /** A path from `start` all the way up: every id is a row and the last has no parent. */
  ghost predicate IsChain(nodes: seq<Node>, start: Uuid, chain: seq<Uuid>) {
    && IsPath(nodes, chain) && chain[0] == start
    && (forall k | 0 <= k < |chain| :: Find(nodes, chain[k]).Some?)
    && Parent(nodes, chain[|chain| - 1]) == None
  }

  ghost predicate HasChain(nodes: seq<Node>, start: Uuid) {
    exists chain :: IsChain(nodes, start, chain)
  }

  // ---------------------------------------------------------------- one walk up

  /** Every walk from the start of a chain follows it. */
  lemma {:induction false} WalkFollowsChain(nodes: seq<Node>, start: Uuid, chain: seq<Uuid>, path: seq<Uuid>)
    requires IsChain(nodes, start, chain) && IsPath(nodes, path) && path[0] == start
    ensures |path| <= |chain| && path == chain[..|path|]
    decreases |path|
  {
    if |path| > 1 {
      var last := |path| - 1;
      var shorter := path[..last];
      assert IsPath(nodes, shorter) by {
        forall k | 0 < k < |shorter|
          ensures Parent(nodes, shorter[k - 1]) == Some(shorter[k])
        {
          assert shorter[k - 1] == path[k - 1] && shorter[k] == path[k];
        }
      }
      WalkFollowsChain(nodes, start, chain, shorter);
      assert path[last - 1] == shorter[last - 1] == chain[last - 1];
      assert Parent(nodes, path[last - 1]) == Some(path[last]);
      assert last < |chain|;
      assert Parent(nodes, chain[last - 1]) == Some(chain[last]);
      assert path == shorter + [path[last]] && chain[..|path|] == chain[..last] + [chain[last]];
    }
  }

  /** A chain never repeats an id: from a repeat on it would repeat for ever. */
  lemma {:induction false} ChainIsDistinct(nodes: seq<Node>, start: Uuid, chain: seq<Uuid>, i: nat, j: nat)
    requires IsChain(nodes, start, chain) && i < j < |chain|
    ensures chain[i] != chain[j]
    decreases |chain| - j
  {
    assert Parent(nodes, chain[i + 1 - 1]) == Some(chain[i + 1]);
    if j < |chain| - 1 {
      assert Parent(nodes, chain[j + 1 - 1]) == Some(chain[j + 1]);
      ChainIsDistinct(nodes, start, chain, i + 1, j + 1);
    }
  }

  lemma PathSnoc(nodes: seq<Node>, path: seq<Uuid>, id: Uuid)
    requires IsPath(nodes, path) && Parent(nodes, path[|path| - 1]) == Some(id)
    ensures IsPath(nodes, path + [id])
  {
    var longer := path + [id];
    forall k | 0 < k < |longer|
      ensures Parent(nodes, longer[k - 1]) == Some(longer[k])
    {
      if k < |path| {
        assert longer[k - 1] == path[k - 1] && longer[k] == path[k];
      }
    }
  }

  /** A walk that meets an id again, or an id that is no row, has no chain. */
  lemma {:induction false} NoChain(nodes: seq<Node>, start: Uuid, path: seq<Uuid>)
    requires IsPath(nodes, path) && path[0] == start
    requires Find(nodes, path[|path| - 1]).None? || path[|path| - 1] in path[..|path| - 1]
    ensures !HasChain(nodes, start)
  {
    forall chain
      ensures !IsChain(nodes, start, chain)
    {
      if IsChain(nodes, start, chain) {
        WalkFollowsChain(nodes, start, chain, path);
        var last := |path| - 1;
        assert path[last] == chain[last];
        if path[last] in path[..last] {
          var i :| 0 <= i < last && path[i] == path[last];
          assert path[i] == chain[..|path|][i] == chain[i];
          ChainIsDistinct(nodes, start, chain, i, last);
        }
      }
    }
  }

  /**
    * The ancestor walk of one task. It accepts exactly when the parents lead to a row without a
    * parent, and it ends whatever the links are.
    */
  method WalkEnds(nodes: seq<Node>, start: Uuid) returns (ok: bool)
    ensures ok <==> HasChain(nodes, start)
  {
    var ancestors: set<Uuid> := {};
    var current := Some(start);
    ghost var path: seq<Uuid> := [];
    while current.Some?
      invariant ancestors == ToSet(path) && ancestors <= Ids(nodes)
      invariant forall k | 0 <= k < |path| :: Find(nodes, path[k]).Some?
      invariant path == [] ==> current == Some(start)
      invariant path != [] ==> IsPath(nodes, path) && path[0] == start && Parent(nodes, path[|path| - 1]) == current
      decreases Ids(nodes) - ancestors, current.Some?
    {
      var id := current.value;
      if path != [] {
        PathSnoc(nodes, path, id);
      }
      ghost var before := path;
      path := path + [id];
      assert path[..|path| - 1] == before;
      if id in ancestors {
        NoChain(nodes, start, path);
        return false;
      }
      ancestors := ancestors + {id};
      var found := Find(nodes, id);
      if found.None? {
        NoChain(nodes, start, path);
        return false;
      }
      assert id in Ids(nodes);
      current := found.value.parent;
    }
    assert IsChain(nodes, start, path);
    return true;
  }

  /** Every task's parents lead to a top-level task: no cycle and no parent outside the archive. */
  method TaskParentsEnd(tasks: seq<Node>) returns (ok: bool)
    ensures ok <==> forall t | t in tasks :: HasChain(tasks, t.id)
  {
    for k := 0 to |tasks|
      invariant forall i | 0 <= i < k :: HasChain(tasks, tasks[i].id)
    {
      var ends := WalkEnds(tasks, tasks[k].id);
      if !ends {
        return false;
      }
    }
    return true;
  }

  /** With unique ids, all tasks having a chain means that no walk returns to where it was. */
  lemma ChainsMeanNoCycle(tasks: seq<Node>, cycle: seq<Uuid>)
    requires forall t | t in tasks :: HasChain(tasks, t.id)
    requires |cycle| >= 2 && IsPath(tasks, cycle)
    ensures cycle[0] != cycle[|cycle| - 1]
  {
    assert Parent(tasks, cycle[1 - 1]) == Some(cycle[1]);
    var t := Find(tasks, cycle[0]).value;
    assert HasChain(tasks, t.id);
    var chain :| IsChain(tasks, t.id, chain);
    WalkFollowsChain(tasks, t.id, chain, cycle);
    ChainIsDistinct(tasks, t.id, chain, 0, |cycle| - 1);
    assert cycle[|cycle| - 1] == chain[..|cycle|][|cycle| - 1];
  }

  // ---------------------------------------------------------------- the wiki closure

  ghost predicate Reaches(nodes: seq<Node>, root: Uuid, id: Uuid) {
    exists path :: IsPath(nodes, path) && path[0] == root && path[|path| - 1] == id
  }

  /** The upward closure of the roots: a root, or an ancestor of one. */
  ghost predicate InClosure(nodes: seq<Node>, roots: seq<Uuid>, id: Uuid) {
    exists root :: root in roots && Reaches(nodes, root, id)
  }

  lemma RootInClosure(nodes: seq<Node>, roots: seq<Uuid>, root: Uuid)
    requires root in roots
    ensures InClosure(nodes, roots, root)
  {
    assert IsPath(nodes, [root]);
    assert Reaches(nodes, root, root);
  }

  lemma ClosureStep(nodes: seq<Node>, roots: seq<Uuid>, id: Uuid, parent: Uuid)
    requires InClosure(nodes, roots, id) && Parent(nodes, id) == Some(parent)
    ensures InClosure(nodes, roots, parent)
  {
    var root :| root in roots && Reaches(nodes, root, id);
    var path :| IsPath(nodes, path) && path[0] == root && path[|path| - 1] == id;
    PathSnoc(nodes, path, parent);
    assert (path + [parent])[0] == root;
    assert Reaches(nodes, root, parent);
  }

  /** A set of rows closed under parents that holds the roots holds their whole closure. */
  lemma {:induction false} ClosedHoldsPath(nodes: seq<Node>, closure: set<Uuid>, path: seq<Uuid>)
    requires IsPath(nodes, path) && path[0] in closure
    requires forall id, p | id in closure && Parent(nodes, id) == Some(p) :: p in closure
    ensures path[|path| - 1] in closure
    decreases |path|
  {
    if |path| > 1 {
      var last := |path| - 1;
      var shorter := path[..last];
      forall k | 0 < k < |shorter|
        ensures Parent(nodes, shorter[k - 1]) == Some(shorter[k])
      {
        assert shorter[k - 1] == path[k - 1] && shorter[k] == path[k];
      }
      ClosedHoldsPath(nodes, closure, shorter);
      assert Parent(nodes, path[last - 1]) == Some(path[last]);
    }
  }

  /** Rows met so far: all from the closure, all present, closed under parents save the walk's next step. */
  ghost predicate Growing(nodes: seq<Node>, roots: seq<Uuid>, closure: set<Uuid>, current: Option<Uuid>) {
    && (forall id | id in closure :: InClosure(nodes, roots, id) && Find(nodes, id).Some?)
    && (forall id, p | id in closure && Parent(nodes, id) == Some(p) :: p in closure || current == Some(p))
    && (current.Some? ==> InClosure(nodes, roots, current.value))
  }

  /** One root's walk: it stops early at a row already in the closure and loses nothing by it. */
  method CloseUp(nodes: seq<Node>, roots: seq<Uuid>, root: Uuid, before: set<Uuid>) returns (ok: bool, closure: set<Uuid>)
    requires root in roots && Growing(nodes, roots, before, None)
    ensures before <= closure
    ensures ok ==> root in closure && Growing(nodes, roots, closure, None)
    ensures !ok ==> exists id :: InClosure(nodes, roots, id) && Find(nodes, id).None?
  {
    closure := before;
    var current := Some(root);
    RootInClosure(nodes, roots, root);
    while current.Some?
      invariant before <= closure && (root in closure || current == Some(root))
      invariant Growing(nodes, roots, closure, current)
      decreases Ids(nodes) - closure, current.Some?
    {
      var id := current.value;
      if id in closure {
        current := None;
        break;
      }
      var found := Find(nodes, id);
      if found.None? {
        return false, closure;
      }
      assert id in Ids(nodes);
      closure := closure + {id};
      current := found.value.parent;
      if current.Some? {
        ClosureStep(nodes, roots, id, current.value);
      }
    }
    return true, closure;
  }

  /**
    * The wiki check: with the backing documents and the origin documents that are wiki documents as
    * roots, it accepts exactly when every ancestor is archived and the wiki documents are precisely
    * the roots and their ancestors.
    */
  method WikiClosureHolds(nodes: seq<Node>, backing: seq<Uuid>, origins: seq<Uuid>, wiki: set<Uuid>) returns (ok: bool)
    ensures var roots := WikiRoots(backing, origins, wiki);
            ok <==> && (forall id | InClosure(nodes, roots, id) :: Find(nodes, id).Some?)
                    && (forall id :: id in wiki <==> InClosure(nodes, roots, id))
  {
    var roots := WikiRoots(backing, origins, wiki);
    var closure: set<Uuid> := {};
    for k := 0 to |roots|
      invariant Growing(nodes, roots, closure, None)
      invariant forall i | 0 <= i < k :: roots[i] in closure
    {
      var found;
      found, closure := CloseUp(nodes, roots, roots[k], closure);
      if !found {
        return false;
      }
    }
    ClosureIsExact(nodes, roots, closure);
    return closure == wiki;
  }

  function WikiRoots(backing: seq<Uuid>, origins: seq<Uuid>, wiki: set<Uuid>): (roots: seq<Uuid>)
    ensures forall r :: r in roots <==> r in backing || (r in origins && r in wiki)
  {
    backing + WikiOnly(origins, wiki)
  }

  function WikiOnly(origins: seq<Uuid>, wiki: set<Uuid>): (r: seq<Uuid>)
    ensures forall x :: x in r <==> x in origins && x in wiki
  {
    if origins == [] then []
    else (if origins[0] in wiki then [origins[0]] else []) + WikiOnly(origins[1..], wiki)
  }

  lemma ClosureIsExact(nodes: seq<Node>, roots: seq<Uuid>, closure: set<Uuid>)
    requires Growing(nodes, roots, closure, None) && forall r | r in roots :: r in closure
    ensures forall id :: id in closure <==> InClosure(nodes, roots, id)
  {
    forall id | InClosure(nodes, roots, id)
      ensures id in closure
    {
      var root :| root in roots && Reaches(nodes, root, id);
      var path :| IsPath(nodes, path) && path[0] == root && path[|path| - 1] == id;
      ClosedHoldsPath(nodes, closure, path);
    }
  }
}
