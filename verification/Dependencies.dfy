/** Task dependencies of an archive: `validate_dependencies` and its iterative depth-first search. */
module Dependencies {
  import opened Options
  import opened Uuids

  datatype Dependency = Dependency(blocker: Uuid, blocked: Uuid, kind: string, lagDays: int)

  // ---------------------------------------------------------------- meaning

  /** The writer's rules for one edge list, without the cycle rule. */
  ghost predicate WellShaped(deps: seq<Dependency>, tasks: set<Uuid>) {
    && (forall i | 0 <= i < |deps| ::
          && deps[i].blocker != deps[i].blocked
          && deps[i].blocker in tasks && deps[i].blocked in tasks
          && (deps[i].kind == "FS" || deps[i].kind == "SS" || deps[i].kind == "FF")
          && deps[i].lagDays >= 0)
    && (forall i, j | 0 <= i < j < |deps| ::
          deps[i].blocker != deps[j].blocker || deps[i].blocked != deps[j].blocked)
  }

  ghost predicate HasEdge(deps: seq<Dependency>, a: Uuid, b: Uuid) {
    exists i :: 0 <= i < |deps| && deps[i].blocker == a && deps[i].blocked == b
  }

  /** A walk along dependency edges that ends where it started. */
  ghost predicate IsCycle(deps: seq<Dependency>, walk: seq<Uuid>) {
    && |walk| >= 2
    && walk[0] == walk[|walk| - 1]
    && forall i | 0 <= i < |walk| - 1 :: HasEdge(deps, walk[i], walk[i + 1])
  }

  ghost predicate Acyclic(deps: seq<Dependency>) {
    forall walk :: !IsCycle(deps, walk)
  }

  // ---------------------------------------------------------------- adjacency

  type Edges = map<Uuid, seq<Uuid>>

  function Successors(edges: Edges, node: Uuid): seq<Uuid> {
    if node in edges then edges[node] else []
  }

  /** `edges` holds exactly the edges of `deps`, and only between tasks. */
  ghost predicate Represents(edges: Edges, deps: seq<Dependency>, tasks: set<Uuid>) {
    && (forall a, b :: b in Successors(edges, a) <==> HasEdge(deps, a, b))
    && (forall a | a in edges :: a in tasks)
    && (forall a, b | b in Successors(edges, a) :: b in tasks)
  }

  method BuildEdges(deps: seq<Dependency>, tasks: set<Uuid>) returns (r: Option<Edges>)
    ensures r.Some? <==> WellShaped(deps, tasks)
    ensures r.Some? ==> Represents(r.value, deps, tasks)
  {
    var edges: Edges := map[];
    var pairs: set<(Uuid, Uuid)> := {};
    for k := 0 to |deps|
      invariant WellShaped(deps[..k], tasks)
      invariant forall p :: p in pairs <==> HasEdge(deps[..k], p.0, p.1)
      invariant Represents(edges, deps[..k], tasks)
    {
      var d := deps[k];
      assert deps[..k + 1] == deps[..k] + [d];
      if d.blocker == d.blocked || d.blocker !in tasks || d.blocked !in tasks
         || !(d.kind == "FS" || d.kind == "SS" || d.kind == "FF")
         || d.lagDays < 0 {
        return None;
      }
      if (d.blocker, d.blocked) in pairs {
        var i :| 0 <= i < |deps[..k]| && deps[..k][i].blocker == d.blocker && deps[..k][i].blocked == d.blocked;
        assert deps[i].blocker == deps[k].blocker && deps[i].blocked == deps[k].blocked;
        return None;
      }
      pairs := pairs + {(d.blocker, d.blocked)};
      edges := AddEdge(edges, deps[..k], d, tasks);
    }
    assert deps[..|deps|] == deps;
    return Some(edges);
  }

  lemma EdgeOfSnoc(deps: seq<Dependency>, d: Dependency, a: Uuid, b: Uuid)
    ensures HasEdge(deps + [d], a, b) <==> HasEdge(deps, a, b) || (a == d.blocker && b == d.blocked)
  {
    var all := deps + [d];
    if HasEdge(deps, a, b) {
      var i :| 0 <= i < |deps| && deps[i].blocker == a && deps[i].blocked == b;
      assert all[i] == deps[i];
    }
    assert all[|deps|] == d;
  }

  function AddEdge(edges: Edges, ghost deps: seq<Dependency>, d: Dependency, ghost tasks: set<Uuid>): (r: Edges)
    requires Represents(edges, deps, tasks)
    requires d.blocker in tasks && d.blocked in tasks
    ensures Represents(r, deps + [d], tasks)
  {
    var r := edges[d.blocker := Successors(edges, d.blocker) + [d.blocked]];
    assert Represents(r, deps + [d], tasks) by {
      forall a, b
        ensures b in Successors(r, a) <==> HasEdge(deps + [d], a, b)
        ensures b in Successors(r, a) ==> b in tasks
      {
        EdgeOfSnoc(deps, d, a, b);
        assert b in Successors(r, a) <==> b in Successors(edges, a) || (a == d.blocker && b == d.blocked);
      }
    }
    r
  }

  // ---------------------------------------------------------------- the search

  /** 1 = on the current path, 2 = finished. */
  type Marks = map<Uuid, nat>

  ghost predicate Finished(marks: Marks, node: Uuid) {
    node in marks && marks[node] == 2
  }

  /** Finished nodes lead only to finished nodes, each finished before its predecessors. */
  ghost predicate FinishOrder(edges: Edges, marks: Marks, rank: map<Uuid, nat>, clock: nat) {
    && (forall n | n in marks && marks[n] == 2 :: n in rank && rank[n] < clock)
    && (forall n, m | n in marks && marks[n] == 2 && m in Successors(edges, n) ::
          Finished(marks, m) && m in rank && n in rank && rank[m] < rank[n])
  }

  /** A node of the current path and how many of its successors have been taken. */
  datatype Frame = Frame(node: Uuid, next: nat)

  type Stack = seq<Frame>

  ghost predicate OnPath(stack: Stack, node: Uuid) {
    exists i :: 0 <= i < |stack| && stack[i].node == node
  }

  /** The grey nodes are exactly the nodes of the stack. */
  ghost predicate GreyIsStack(marks: Marks, stack: Stack) {
    && (forall n | n in marks :: marks[n] == 1 || marks[n] == 2)
    && (forall n :: n in marks && marks[n] == 1 <==> OnPath(stack, n))
  }

  ghost predicate Distinct(stack: Stack) {
    forall i, j | 0 <= i < j < |stack| :: stack[i].node != stack[j].node
  }

  /** Each frame was entered as the last taken successor of the frame below: the stack is a path. */
  ghost predicate Linked(edges: Edges, stack: Stack) {
    && (forall i | 0 <= i < |stack| :: stack[i].next <= |Successors(edges, stack[i].node)|)
    && (forall i | 0 < i < |stack| :: EntersFrom(edges, stack[i - 1], stack[i].node))
  }

  ghost predicate EntersFrom(edges: Edges, below: Frame, node: Uuid) {
    && 1 <= below.next <= |Successors(edges, below.node)|
    && Successors(edges, below.node)[below.next - 1] == node
  }

  /** The first `k` successors of `node` are finished. */
  ghost predicate Passed(edges: Edges, marks: Marks, node: Uuid, k: int) {
    forall j | 0 <= j < k && j < |Successors(edges, node)| :: Finished(marks, Successors(edges, node)[j])
  }

  /** Every taken successor is finished, save the one a lower frame is waiting for. */
  ghost predicate TakenAreFinished(edges: Edges, marks: Marks, stack: Stack) {
    forall i | 0 <= i < |stack| ::
      Passed(edges, marks, stack[i].node, if i == |stack| - 1 then stack[i].next else stack[i].next - 1)
  }

  ghost predicate Searching(edges: Edges, marks: Marks, stack: Stack) {
    && GreyIsStack(marks, stack)
    && Distinct(stack)
    && Linked(edges, stack)
    && TakenAreFinished(edges, marks, stack)
  }

  /** A grey successor of the top of the path closes a cycle. */
  lemma GreyClosesCycle(deps: seq<Dependency>, tasks: set<Uuid>, edges: Edges, stack: Stack, child: Uuid)
    requires Represents(edges, deps, tasks)
    requires Linked(edges, stack) && stack != []
    requires child in Successors(edges, stack[|stack| - 1].node)
    requires OnPath(stack, child)
    ensures !Acyclic(deps)
  {
    var i :| 0 <= i < |stack| && stack[i].node == child;
    var walk := PathNodes(stack[i..]) + [child];
    forall k | 0 <= k < |walk| - 1
      ensures HasEdge(deps, walk[k], walk[k + 1])
    {
      if k < |walk| - 2 {
        assert EntersFrom(edges, stack[i + k + 1 - 1], stack[i + k + 1].node);
      }
      assert walk[k + 1] in Successors(edges, walk[k]);
    }
    assert IsCycle(deps, walk);
  }

  ghost function PathNodes(stack: Stack): (nodes: seq<Uuid>)
    ensures |nodes| == |stack|
    ensures forall k | 0 <= k < |stack| :: nodes[k] == stack[k].node
  {
    if stack == [] then [] else [stack[0].node] + PathNodes(stack[1..])
  }

  /** If every node with a successor is finished there is no cycle: ranks fall along every edge. */
  lemma FinishedMeansAcyclic(deps: seq<Dependency>, tasks: set<Uuid>, edges: Edges, marks: Marks, rank: map<Uuid, nat>, clock: nat)
    requires Represents(edges, deps, tasks)
    requires FinishOrder(edges, marks, rank, clock)
    requires forall n | n in edges :: Finished(marks, n)
    ensures Acyclic(deps)
  {
    forall walk
      ensures !IsCycle(deps, walk)
    {
      if IsCycle(deps, walk) {
        RankFalls(deps, tasks, edges, marks, rank, clock, walk, |walk| - 1);
      }
    }
  }

  lemma {:induction false} RankFalls(deps: seq<Dependency>, tasks: set<Uuid>, edges: Edges, marks: Marks, rank: map<Uuid, nat>,
                  clock: nat, walk: seq<Uuid>, k: nat)
    requires Represents(edges, deps, tasks)
    requires FinishOrder(edges, marks, rank, clock)
    requires forall n | n in edges :: Finished(marks, n)
    requires |walk| >= 2 && 1 <= k < |walk|
    requires forall i | 0 <= i < |walk| - 1 :: HasEdge(deps, walk[i], walk[i + 1])
    ensures walk[0] in rank && walk[k] in rank && rank[walk[k]] < rank[walk[0]]
  {
    assert HasEdge(deps, walk[k - 1], walk[k]);
    assert walk[k] in Successors(edges, walk[k - 1]);
    if k > 1 {
      RankFalls(deps, tasks, edges, marks, rank, clock, walk, k - 1);
    }
  }

  /**
    * One search from `start`: either every node it meets is finished, or a cycle was found.
    * Earlier finished nodes stay finished with their rank.
    */
  method Explore(edges: Edges, start: Uuid, before: Marks, ghost deps: seq<Dependency>, ghost tasks: set<Uuid>,
                 ghost rank0: map<Uuid, nat>, ghost clock0: nat)
    returns (ok: bool, marks: Marks, ghost rank: map<Uuid, nat>, ghost clock: nat)
    requires Represents(edges, deps, tasks)
    requires start in edges && start !in before
    requires forall n | n in before :: before[n] == 2 && n in tasks
    requires FinishOrder(edges, before, rank0, clock0)
    ensures !ok ==> !Acyclic(deps)
    ensures ok ==> FinishOrder(edges, marks, rank, clock)
    ensures ok ==> forall n | n in marks :: marks[n] == 2 && n in tasks
    ensures ok ==> Finished(marks, start) && forall n | n in before :: Finished(marks, n)
  {
    var stack := [Frame(start, 0)];
    marks := before[start := 1];
    rank, clock := rank0, clock0;
    StartPath(edges, before, start, rank, clock);
    while stack != []
      invariant forall n | n in marks :: n in tasks
      invariant start in marks && forall n | n in before :: Finished(marks, n)
      invariant Searching(edges, marks, stack)
      invariant FinishOrder(edges, marks, rank, clock)
      decreases tasks - marks.Keys, |stack|, Untaken(edges, stack)
    {
      var cyclic;
      cyclic, marks, stack, rank, clock := Iterate(edges, marks, stack, deps, tasks, rank, clock);
      if cyclic {
        return false, marks, rank, clock;
      }
    }
    ok := true;
    NothingGrey(marks);
  }

  ghost function Untaken(edges: Edges, stack: Stack): int {
    if stack == [] then 0 else |Successors(edges, stack[|stack| - 1].node)| - stack[|stack| - 1].next
  }

  lemma NothingGrey(marks: Marks)
    requires GreyIsStack(marks, [])
    ensures forall n | n in marks :: marks[n] == 2
  {
    forall n | n in marks
      ensures marks[n] == 2
    {
      assert !OnPath([], n);
    }
  }

  /** One turn of the loop: take the next successor of the top frame, or finish it. */
  method Iterate(edges: Edges, marks: Marks, stack: Stack, ghost deps: seq<Dependency>, ghost tasks: set<Uuid>,
                 ghost rank: map<Uuid, nat>, ghost clock: nat)
    returns (cyclic: bool, m: Marks, s: Stack, ghost r: map<Uuid, nat>, ghost c: nat)
    requires Represents(edges, deps, tasks)
    requires stack != [] && Searching(edges, marks, stack)
    requires FinishOrder(edges, marks, rank, clock)
    requires forall n | n in marks :: n in tasks
    ensures cyclic ==> !Acyclic(deps)
    ensures Searching(edges, m, s) && FinishOrder(edges, m, r, c)
    ensures forall n | n in m :: n in tasks
    ensures forall n | n in marks :: n in m
    ensures forall n | Finished(marks, n) :: Finished(m, n)
    ensures !cyclic ==>
              || (exists n :: n in tasks && n !in marks && n in m)
              || (m.Keys == marks.Keys && |s| < |stack|)
              || (m.Keys == marks.Keys && |s| == |stack| && Untaken(edges, s) < Untaken(edges, stack))
  {
    var Frame(node, next) := stack[|stack| - 1];
    if next < |Successors(edges, node)| {
      cyclic, m, s := TakeSuccessor(edges, marks, stack, deps, tasks, rank, clock);
      r, c := rank, clock;
    } else {
      TopIsDone(edges, marks, stack);
      Pop(edges, marks, stack);
      FinishKeepsOrder(edges, marks, node, rank, clock);
      cyclic, m, s := false, marks[node := 2], stack[..|stack| - 1];
      r, c := rank[node := clock], clock + 1;
    }
  }

  /** The next successor of the top frame: a cycle, a finished node, or a new one. */
  method TakeSuccessor(edges: Edges, marks: Marks, stack: Stack, ghost deps: seq<Dependency>, ghost tasks: set<Uuid>,
                       ghost rank: map<Uuid, nat>, ghost clock: nat)
    returns (cyclic: bool, m: Marks, s: Stack)
    requires Represents(edges, deps, tasks)
    requires stack != [] && Searching(edges, marks, stack)
    requires stack[|stack| - 1].next < |Successors(edges, stack[|stack| - 1].node)|
    requires FinishOrder(edges, marks, rank, clock)
    requires forall n | n in marks :: n in tasks
    ensures cyclic ==> !Acyclic(deps)
    ensures Searching(edges, m, s) && FinishOrder(edges, m, rank, clock)
    ensures forall n | n in m :: n in tasks
    ensures forall n | n in marks :: n in m
    ensures forall n | Finished(marks, n) :: Finished(m, n)
    ensures !cyclic ==>
              || (exists n :: n in tasks && n !in marks && n in m)
              || (m == marks && |s| == |stack| && Untaken(edges, s) < Untaken(edges, stack))
  {
    hide FinishOrder, Acyclic, Distinct, Linked, TakenAreFinished;
    var top := |stack| - 1;
    var Frame(node, next) := stack[top];
    var child := Successors(edges, node)[next];
    assert child in Successors(edges, node);
    if child in marks && marks[child] == 1 {
      GreyClosesCycle(deps, tasks, edges, stack, child);
      return true, marks, stack;
    }
    if child in marks {
      Advance(edges, marks, stack);
      return false, marks, stack[top := Frame(node, next + 1)];
    }
    Push(edges, marks, stack);
    MarkKeepsOrder(edges, marks, child, rank, clock);
    m := marks[child := 1];
    assert child in m && child !in marks;
    return false, m, stack[top := Frame(node, next + 1)] + [Frame(child, 0)];
  }

  lemma StartPath(edges: Edges, before: Marks, start: Uuid, rank: map<Uuid, nat>, clock: nat)
    requires start !in before
    requires forall n | n in before :: before[n] == 2
    requires FinishOrder(edges, before, rank, clock)
    ensures Searching(edges, before[start := 1], [Frame(start, 0)])
    ensures FinishOrder(edges, before[start := 1], rank, clock)
  {
    var stack := [Frame(start, 0)];
    assert stack[0].node == start;
    MarkKeepsOrder(edges, before, start, rank, clock);
  }

  /** Marking a new node grey leaves the finished nodes as they are. */
  lemma MarkKeepsOrder(edges: Edges, marks: Marks, node: Uuid, rank: map<Uuid, nat>, clock: nat)
    requires node !in marks
    requires FinishOrder(edges, marks, rank, clock)
    ensures FinishOrder(edges, marks[node := 1], rank, clock)
  {
    var m := marks[node := 1];
    forall a, b | a in m && m[a] == 2 && b in Successors(edges, a)
      ensures Finished(m, b) && b in rank && a in rank && rank[b] < rank[a]
    {
      assert Finished(marks, b);
    }
  }

  /** A node whose successors are all finished may be finished, last in rank. */
  lemma FinishKeepsOrder(edges: Edges, marks: Marks, node: Uuid, rank: map<Uuid, nat>, clock: nat)
    requires node in marks && marks[node] == 1
    requires FinishOrder(edges, marks, rank, clock)
    requires forall x | x in Successors(edges, node) :: Finished(marks, x)
    ensures FinishOrder(edges, marks[node := 2], rank[node := clock], clock + 1)
  {
    var m, r := marks[node := 2], rank[node := clock];
    forall a, b | a in m && m[a] == 2 && b in Successors(edges, a)
      ensures Finished(m, b) && b in r && a in r && r[b] < r[a]
    {
      assert Finished(marks, b);
      assert b != node;
    }
  }

  lemma PassedIsMonotone(edges: Edges, marks: Marks, m: Marks, node: Uuid, k: int)
    requires Passed(edges, marks, node, k)
    requires forall n | n in marks && marks[n] == 2 :: n in m && m[n] == 2
    ensures Passed(edges, m, node, k)
  {
    forall j | 0 <= j < k && j < |Successors(edges, node)|
      ensures Finished(m, Successors(edges, node)[j])
    {
      assert Finished(marks, Successors(edges, node)[j]);
    }
  }

  /** A finished successor is passed over. */
  lemma Advance(edges: Edges, marks: Marks, stack: Stack)
    requires Searching(edges, marks, stack) && stack != []
    requires var f := stack[|stack| - 1]; f.next < |Successors(edges, f.node)| && Finished(marks, Successors(edges, f.node)[f.next])
    ensures var f := stack[|stack| - 1];
            Searching(edges, marks, stack[|stack| - 1 := Frame(f.node, f.next + 1)])
  {
    hide GreyIsStack, Successors;
    var top := |stack| - 1;
    var f := stack[top];
    var s := stack[top := Frame(f.node, f.next + 1)];
    SameNodes(marks, stack, s);
    forall i | 0 < i < |s|
      ensures EntersFrom(edges, s[i - 1], s[i].node)
    {
      assert EntersFrom(edges, stack[i - 1], stack[i].node);
    }
    forall i | 0 <= i < |s|
      ensures Passed(edges, marks, s[i].node, if i == |s| - 1 then s[i].next else s[i].next - 1)
    {
      assert Passed(edges, marks, stack[i].node, if i == |stack| - 1 then stack[i].next else stack[i].next - 1);
    }
  }

  lemma SameNodes(marks: Marks, stack: Stack, s: Stack)
    requires GreyIsStack(marks, stack) && |s| == |stack| && forall i | 0 <= i < |s| :: s[i].node == stack[i].node
    ensures GreyIsStack(marks, s)
  {
    forall n
      ensures OnPath(s, n) <==> OnPath(stack, n)
    {
      if OnPath(stack, n) {
        var i :| 0 <= i < |stack| && stack[i].node == n;
        assert s[i].node == n;
      }
    }
  }

  /** A successor never met joins the path. */
  lemma Push(edges: Edges, marks: Marks, stack: Stack)
    requires Searching(edges, marks, stack) && stack != []
    requires var f := stack[|stack| - 1]; f.next < |Successors(edges, f.node)| && Successors(edges, f.node)[f.next] !in marks
    ensures var f := stack[|stack| - 1];
            var child := Successors(edges, f.node)[f.next];
            Searching(edges, marks[child := 1], stack[|stack| - 1 := Frame(f.node, f.next + 1)] + [Frame(child, 0)])
  {
    var top := |stack| - 1;
    var f := stack[top];
    var child := Successors(edges, f.node)[f.next];
    var m := marks[child := 1];
    var s := stack[top := Frame(f.node, f.next + 1)] + [Frame(child, 0)];
    assert !OnPath(stack, child);
    PushGrey(marks, stack, s, child);
    forall i | 0 < i < |s|
      ensures EntersFrom(edges, s[i - 1], s[i].node)
    {
      if i <= top {
        assert EntersFrom(edges, stack[i - 1], stack[i].node);
      }
    }
    forall i | 0 <= i < |s|
      ensures Passed(edges, m, s[i].node, if i == |s| - 1 then s[i].next else s[i].next - 1)
    {
      if i <= top {
        PassedIsMonotone(edges, marks, m, stack[i].node, if i == top then stack[i].next else stack[i].next - 1);
      }
    }
  }

  lemma PushGrey(marks: Marks, stack: Stack, s: Stack, child: Uuid)
    requires GreyIsStack(marks, stack) && Distinct(stack) && child !in marks
    requires |s| == |stack| + 1 && s[|stack|].node == child
    requires forall i | 0 <= i < |stack| :: s[i].node == stack[i].node
    ensures GreyIsStack(marks[child := 1], s) && Distinct(s)
  {
    forall n
      ensures OnPath(s, n) <==> OnPath(stack, n) || n == child
    {
      if OnPath(stack, n) {
        var i :| 0 <= i < |stack| && stack[i].node == n;
        assert s[i].node == n;
      }
    }
    forall i | 0 <= i < |stack|
      ensures s[i].node != child
    {
      assert OnPath(stack, stack[i].node);
    }
  }

  lemma TopIsDone(edges: Edges, marks: Marks, stack: Stack)
    requires Searching(edges, marks, stack) && stack != []
    requires stack[|stack| - 1].next >= |Successors(edges, stack[|stack| - 1].node)|
    ensures OnPath(stack, stack[|stack| - 1].node)
    ensures forall x | x in Successors(edges, stack[|stack| - 1].node) :: Finished(marks, x)
  {
    var f := stack[|stack| - 1];
    assert Passed(edges, marks, f.node, f.next);
    forall x | x in Successors(edges, f.node)
      ensures Finished(marks, x)
    {
      var j :| 0 <= j < |Successors(edges, f.node)| && Successors(edges, f.node)[j] == x;
      assert Finished(marks, Successors(edges, f.node)[j]);
    }
  }

  lemma PopPath(stack: Stack, n: Uuid)
    requires stack != [] && Distinct(stack)
    ensures OnPath(stack[..|stack| - 1], n) <==> OnPath(stack, n) && n != stack[|stack| - 1].node
  {
    var s := stack[..|stack| - 1];
    if OnPath(stack, n) && n != stack[|stack| - 1].node {
      var i :| 0 <= i < |stack| && stack[i].node == n;
      assert s[i].node == n;
    }
  }

  lemma PopGrey(marks: Marks, stack: Stack)
    requires stack != [] && Distinct(stack) && GreyIsStack(marks, stack)
    ensures GreyIsStack(marks[stack[|stack| - 1].node := 2], stack[..|stack| - 1])
  {
    hide OnPath, Distinct;
    var node := stack[|stack| - 1].node;
    var m, s := marks[node := 2], stack[..|stack| - 1];
    forall n
      ensures n in m && m[n] == 1 <==> OnPath(s, n)
    {
      PopPath(stack, n);
    }
  }

  lemma PopTaken(edges: Edges, marks: Marks, stack: Stack)
    requires stack != [] && Distinct(stack) && Linked(edges, stack) && TakenAreFinished(edges, marks, stack)
    ensures TakenAreFinished(edges, marks[stack[|stack| - 1].node := 2], stack[..|stack| - 1])
  {
    hide Successors;
    var top := |stack| - 1;
    var node := stack[top].node;
    var m, s := marks[node := 2], stack[..top];
    forall i | 0 <= i < |s|
      ensures Passed(edges, m, s[i].node, if i == |s| - 1 then s[i].next else s[i].next - 1)
    {
      PassedIsMonotone(edges, marks, m, stack[i].node, stack[i].next - 1);
      if i == top - 1 {
        assert EntersFrom(edges, stack[top - 1], node);
      }
    }
  }

  /** The finished top leaves the path; the frame below was waiting for it. */
  lemma Pop(edges: Edges, marks: Marks, stack: Stack)
    requires Searching(edges, marks, stack) && stack != []
    ensures Searching(edges, marks[stack[|stack| - 1].node := 2], stack[..|stack| - 1])
  {
    hide GreyIsStack, TakenAreFinished, EntersFrom, Successors;
    PopGrey(marks, stack);
    PopTaken(edges, marks, stack);
    var s := stack[..|stack| - 1];
    forall i | 0 < i < |s|
      ensures EntersFrom(edges, s[i - 1], s[i].node)
    {
      assert EntersFrom(edges, stack[i - 1], stack[i].node);
    }
  }

  /** The archive's check accepts exactly the well-shaped edge lists whose graph has no cycle. */
  method ValidateDependencies(deps: seq<Dependency>, tasks: set<Uuid>) returns (ok: bool)
    ensures ok <==> WellShaped(deps, tasks) && Acyclic(deps)
  {
    var built := BuildEdges(deps, tasks);
    if built.None? {
      return false;
    }
    var edges := built.value;
    var marks: Marks := map[];
    ghost var rank: map<Uuid, nat> := map[];
    ghost var clock := 0;
    var pending := edges.Keys;
    while pending != {}
      invariant pending <= edges.Keys
      invariant forall n | n in marks :: marks[n] == 2 && n in tasks
      invariant FinishOrder(edges, marks, rank, clock)
      invariant forall n | n in edges && n !in pending :: Finished(marks, n)
    {
      var start :| start in pending;
      pending := pending - {start};
      if start !in marks {
        var done;
        done, marks, rank, clock := Explore(edges, start, marks, deps, tasks, rank, clock);
        if !done {
          return false;
        }
      }
    }
    FinishedMeansAcyclic(deps, tasks, edges, marks, rank, clock);
    return true;
  }
}
