/** `comments_parent_first`: archived comments with every parent before its replies. */
module Comments {
  import opened Options
  import opened Uuids
  import opened Sequences

  datatype Comment = Comment(id: Uuid, parent: Option<Uuid>, body: string)

  // ---------------------------------------------------------------- meaning

  ghost predicate UniqueIds(comments: seq<Comment>) {
    forall i, j | 0 <= i < j < |comments| :: comments[i].id != comments[j].id
  }

  /** A chain of parents from comment `i` that ends at a top-level comment. */
  ghost predicate IsChain(comments: seq<Comment>, i: nat, chain: seq<nat>) {
    && chain != [] && chain[0] == i
    && (forall k | 0 <= k < |chain| :: chain[k] < |comments|)
    && (forall k | 0 <= k < |chain| - 1 :: comments[chain[k]].parent == Some(comments[chain[k + 1]].id))
    && comments[chain[|chain| - 1]].parent == None
  }

  ghost predicate Rooted(comments: seq<Comment>, i: nat) {
    exists chain :: IsChain(comments, i, chain)
  }

  /** The replies to `parent` (the top-level comments for `None`), in archive order. */
  function Children(comments: seq<Comment>, parent: Option<Uuid>, from: nat := 0): (kids: seq<nat>)
    requires from <= |comments|
    ensures Within(kids, |comments|)
    decreases |comments| - from
  {
    if from == |comments| then []
    else
      var rest := Children(comments, parent, from + 1);
      if comments[from].parent == parent then [from] + rest else rest
  }

  lemma {:induction false} ChildrenListed(comments: seq<Comment>, parent: Option<Uuid>, from: nat)
    requires from <= |comments|
    ensures var kids := Children(comments, parent, from);
            && (forall k | 0 <= k < |kids| :: from <= kids[k] && comments[kids[k]].parent == parent)
            && Ascending(kids)
    decreases |comments| - from
  {
    if from < |comments| {
      ChildrenListed(comments, parent, from + 1);
      var kids, rest := Children(comments, parent, from), Children(comments, parent, from + 1);
      if comments[from].parent == parent {
        assert kids == [from] + rest;
        assert forall k | 1 <= k < |kids| :: kids[k] == rest[k - 1];
      }
    }
  }

  lemma {:induction false} ChildrenComplete(comments: seq<Comment>, parent: Option<Uuid>, from: nat, c: nat)
    requires from <= c < |comments| && comments[c].parent == parent
    ensures c in Children(comments, parent, from)
    decreases |comments| - from
  {
    if from < c {
      ChildrenComplete(comments, parent, from + 1, c);
    }
  }

  /** The listed replies are exactly the comments with that parent. */
  lemma {:induction false} ChildrenAre(comments: seq<Comment>, parent: Option<Uuid>)
    ensures var kids := Children(comments, parent);
            && (forall c :: c in kids <==> 0 <= c < |comments| && comments[c].parent == parent)
            && (forall k | 0 <= k < |kids| :: comments[kids[k]].parent == parent)
            && Ascending(kids) && Distinct(kids)
  {
    ChildrenListed(comments, parent, 0);
    forall c: nat | c < |comments| && comments[c].parent == parent
      ensures c in Children(comments, parent)
    {
      ChildrenComplete(comments, parent, 0, c);
    }
  }

  /** Each listed comment followed depth-first by its replies, `depth` levels down. */
  function Preorder(comments: seq<Comment>, kids: seq<nat>, depth: nat): seq<nat>
    requires Within(kids, |comments|)
    decreases depth, |kids|
  {
    if kids == [] then []
    else [kids[0]] + Replies(comments, kids[0], depth) + Preorder(comments, kids[1..], depth)
  }

  function Replies(comments: seq<Comment>, i: nat, depth: nat): seq<nat>
    requires i < |comments|
    decreases depth, 0
  {
    if depth == 0 then [] else Preorder(comments, Children(comments, Some(comments[i].id)), depth - 1)
  }

  /** Every reply comes after its parent. */
  ghost predicate ParentFirst(comments: seq<Comment>, order: seq<nat>)
    requires Within(order, |comments|)
  {
    forall k | 0 <= k < |order| && comments[order[k]].parent.Some? ::
      ParentBefore(comments, order, k, comments[order[k]].parent.value)
  }

  ghost predicate ParentBefore(comments: seq<Comment>, order: seq<nat>, k: nat, parent: Uuid)
    requires Within(order, |comments|)
  {
    exists j :: 0 <= j < k && j < |order| && comments[order[j]].id == parent
  }

  // ---------------------------------------------------------------- the explicit stack

  /** What is still to come: the stack from its top down, each comment with its replies. */
  ghost function Pending(comments: seq<Comment>, stack: seq<nat>, depth: seq<nat>): seq<nat>
    requires |depth| == |stack| && Within(stack, |comments|)
    decreases |stack|
  {
    if stack == [] then []
    else
      var top := |stack| - 1;
      [stack[top]] + Replies(comments, stack[top], depth[top]) + Pending(comments, stack[..top], depth[..top])
  }

  ghost function Repeat(x: nat, n: nat): (s: seq<nat>)
    ensures |s| == n && forall k | 0 <= k < n :: s[k] == x
  {
    seq(n, _ => x)
  }

  /** Pushing the reversed replies puts their preorder in front of what was pending. */
  lemma {:induction false} PushKids(comments: seq<Comment>, stack: seq<nat>, depth: seq<nat>, kids: seq<nat>, d: nat)
    requires |depth| == |stack| && Within(stack, |comments|) && Within(kids, |comments|)
    ensures Within(stack + Reverse(kids), |comments|)
    ensures Pending(comments, stack + Reverse(kids), depth + Repeat(d, |kids|))
         == Preorder(comments, kids, d) + Pending(comments, stack, depth)
    decreases |kids|
  {
    hide Pending, Replies;
    if kids == [] {
      assert stack + Reverse(kids) == stack && depth + Repeat(d, 0) == depth;
    } else {
      PushKids(comments, stack, depth, kids[1..], d);
      var s, e := stack + Reverse(kids[1..]), depth + Repeat(d, |kids| - 1);
      assert stack + Reverse(kids) == s + [kids[0]];
      assert depth + Repeat(d, |kids|) == e + [d];
      PendingSnoc(comments, s, e, kids[0], d);
      Regroup([kids[0]] + Replies(comments, kids[0], d), Preorder(comments, kids[1..], d), Pending(comments, stack, depth));
    }
  }

  lemma {:induction false} PendingSnoc(comments: seq<Comment>, stack: seq<nat>, depth: seq<nat>, i: nat, d: nat)
    requires |depth| == |stack| && Within(stack, |comments|) && i < |comments|
    ensures Pending(comments, stack + [i], depth + [d])
         == [i] + Replies(comments, i, d) + Pending(comments, stack, depth)
  {
    var s, e := stack + [i], depth + [d];
    assert s[..|s| - 1] == stack && e[..|s| - 1] == depth;
  }

  lemma Regroup(a: seq<nat>, b: seq<nat>, c: seq<nat>)
    ensures a + (b + c) == a + b + c
  {
  }

  /** Visited and waiting comments: no repeats, parents visited first, and nothing forgotten. */
  ghost predicate Visiting(comments: seq<Comment>, order: seq<nat>, stack: seq<nat>) {
    && Within(order, |comments|) && Within(stack, |comments|)
    && Distinct(order + stack)
    && ParentFirst(comments, order)
    && (forall k | 0 <= k < |stack| && comments[stack[k]].parent.Some? ::
          ParentBefore(comments, order, |order|, comments[stack[k]].parent.value))
    && (forall c | 0 <= c < |comments| && comments[c].parent == None :: c in order + stack)
    && (forall c, k | 0 <= c < |comments| && 0 <= k < |order| && comments[c].parent == Some(comments[order[k]].id) ::
          c in order + stack)
  }

  lemma {:induction false} StartVisit(comments: seq<Comment>)
    ensures var roots := Reverse(Children(comments, None)); Visiting(comments, [], roots)
  {
    var kids := Children(comments, None);
    ChildrenAre(comments, None);
    ReverseElements(kids);
    assert [] + Reverse(kids) == Reverse(kids);
  }

  /** Visiting the top of the stack and pushing its replies. */
  lemma {:induction false} Visit(comments: seq<Comment>, order: seq<nat>, stack: seq<nat>)
    requires UniqueIds(comments) && stack != [] && Visiting(comments, order, stack)
    ensures var i := stack[|stack| - 1];
            var kids := Children(comments, Some(comments[i].id));
            Visiting(comments, order + [i], stack[..|stack| - 1] + Reverse(kids))
  {
    var top := |stack| - 1;
    var i := stack[top];
    var kids := Children(comments, Some(comments[i].id));
    var order', stack' := order + [i], stack[..top] + Reverse(kids);
    ChildrenAre(comments, Some(comments[i].id));
    ReverseElements(kids);
    FreshKids(comments, order, stack, kids);
    Membership(order, stack, i);
    assert order' + stack' == (order + [i] + stack[..top]) + Reverse(kids);
    VisitDistinct(order, stack, i, Reverse(kids));
    VisitParents(comments, order, stack, kids);
    forall c, k | 0 <= c < |comments| && 0 <= k < |order'| && comments[c].parent == Some(comments[order'[k]].id)
      ensures c in order' + stack'
    {
      if k < |order| {
        assert comments[c].parent == Some(comments[order[k]].id);
        assert c in order + stack;
      } else {
        assert c in kids;
      }
    }
  }

  lemma VisitParents(comments: seq<Comment>, order: seq<nat>, stack: seq<nat>, kids: seq<nat>)
    requires stack != [] && Visiting(comments, order, stack)
    requires kids == Children(comments, Some(comments[stack[|stack| - 1]].id))
    ensures var order', stack' := order + [stack[|stack| - 1]], stack[..|stack| - 1] + Reverse(kids);
            && Within(order', |comments|) && Within(stack', |comments|) && ParentFirst(comments, order')
            && forall k | 0 <= k < |stack'| && comments[stack'[k]].parent.Some? ::
                 ParentBefore(comments, order', |order'|, comments[stack'[k]].parent.value)
  {
    var order' := order + [stack[|stack| - 1]];
    assert order'[..|order|] == order;
    forall k | 0 <= k < |order'| && comments[order'[k]].parent.Some?
      ensures ParentBefore(comments, order', k, comments[order'[k]].parent.value)
    {
      MorePlaces(comments, order, order', k, comments[order'[k]].parent.value);
    }
    StackParents(comments, order, stack, kids);
  }

  lemma StackParents(comments: seq<Comment>, order: seq<nat>, stack: seq<nat>, kids: seq<nat>)
    requires stack != [] && Within(order, |comments|) && Within(stack, |comments|)
    requires forall k | 0 <= k < |stack| && comments[stack[k]].parent.Some? ::
               ParentBefore(comments, order, |order|, comments[stack[k]].parent.value)
    requires kids == Children(comments, Some(comments[stack[|stack| - 1]].id))
    ensures var order', stack' := order + [stack[|stack| - 1]], stack[..|stack| - 1] + Reverse(kids);
            && Within(stack', |comments|)
            && forall k | 0 <= k < |stack'| && comments[stack'[k]].parent.Some? ::
                 ParentBefore(comments, order', |order'|, comments[stack'[k]].parent.value)
  {
    var top := |stack| - 1;
    var i := stack[top];
    var order', stack' := order + [i], stack[..top] + Reverse(kids);
    ChildrenListed(comments, Some(comments[i].id), 0);
    forall k | 0 <= k < |stack'| && comments[stack'[k]].parent.Some?
      ensures ParentBefore(comments, order', |order'|, comments[stack'[k]].parent.value)
    {
      if k < top {
        assert stack'[k] == stack[k];
        assert order'[..|order|] == order;
        MorePlaces(comments, order, order', |order|, comments[stack[k]].parent.value);
      } else {
        var m := |kids| - 1 - (k - top);
        assert stack'[k] == kids[m];
        assert order'[|order|] == i;
      }
    }
  }

  lemma MorePlaces(comments: seq<Comment>, order: seq<nat>, longer: seq<nat>, k: nat, parent: Uuid)
    requires Within(order, |comments|) && Within(longer, |comments|)
    requires |order| <= |longer| && longer[..|order|] == order
    requires ParentBefore(comments, order, k, parent)
    ensures ParentBefore(comments, longer, k, parent)
    ensures ParentBefore(comments, longer, k + 1, parent)
  {
    var j :| 0 <= j < k && j < |order| && comments[order[j]].id == parent;
    assert longer[j] == longer[..|order|][j];
  }

  lemma Membership(order: seq<nat>, stack: seq<nat>, i: nat)
    requires stack != [] && stack[|stack| - 1] == i
    ensures forall x :: x in order + stack <==> x in order + [i] + stack[..|stack| - 1]
  {
    assert stack == stack[..|stack| - 1] + [i];
  }

  /** The replies of a comment still on the stack have not been met: only their own parent pushes them. */
  lemma {:induction false} FreshKids(comments: seq<Comment>, order: seq<nat>, stack: seq<nat>, kids: seq<nat>)
    requires UniqueIds(comments) && stack != [] && Visiting(comments, order, stack)
    requires kids == Children(comments, Some(comments[stack[|stack| - 1]].id))
    ensures forall c | c in kids :: c !in order + stack
  {
    ChildrenAre(comments, Some(comments[stack[|stack| - 1]].id));
    forall c | c in kids
      ensures c !in order + stack
    {
      if c in order {
        var k :| 0 <= k < |order| && order[k] == c;
        ParentStillWaiting(comments, order, stack, k);
      }
      if c in stack {
        var k :| 0 <= k < |stack| && stack[k] == c;
        ParentStillWaiting(comments, order, stack, |order|);
      }
    }
  }

  /** The top of the stack is no visited comment's parent. */
  lemma ParentStillWaiting(comments: seq<Comment>, order: seq<nat>, stack: seq<nat>, k: nat)
    requires UniqueIds(comments) && stack != [] && k <= |order|
    requires Within(order, |comments|) && Within(stack, |comments|) && Distinct(order + stack)
    ensures !ParentBefore(comments, order, k, comments[stack[|stack| - 1]].id)
  {
    var i, all := stack[|stack| - 1], order + stack;
    forall j | 0 <= j < |order|
      ensures comments[order[j]].id != comments[i].id
    {
      assert all[j] == order[j] && all[|all| - 1] == i;
    }
  }

  lemma VisitDistinct(order: seq<nat>, stack: seq<nat>, i: nat, kids: seq<nat>)
    requires stack != [] && stack[|stack| - 1] == i && Distinct(order + stack)
    requires Distinct(kids) && forall c | c in kids :: c !in order + stack
    ensures Distinct(order + [i] + stack[..|stack| - 1] + kids)
  {
    var top := |stack| - 1;
    var all, first := order + stack, order + [i] + stack[..top];
    Membership(order, stack, i);
    assert Distinct(first) by {
      forall a, b | 0 <= a < b < |first|
        ensures first[a] != first[b]
      {
        var a' := if a == |order| then |all| - 1 else if a > |order| then a - 1 else a;
        var b' := if b == |order| then |all| - 1 else if b > |order| then b - 1 else b;
        assert first[a] == all[a'] && first[b] == all[b'] && a' != b';
      }
    }
    forall a, b | 0 <= a < b < |first + kids|
      ensures (first + kids)[a] != (first + kids)[b]
    {
      if a < |first| <= b {
        assert first[a] in first && kids[b - |first|] in kids;
      }
    }
  }

  // ---------------------------------------------------------------- rooted comments

  /** A comment visited after its parent has a chain to the top. */
  lemma {:induction false} VisitedIsRooted(comments: seq<Comment>, order: seq<nat>, k: nat)
    requires Within(order, |comments|) && ParentFirst(comments, order) && k < |order|
    ensures Rooted(comments, order[k])
    decreases k
  {
    var i := order[k];
    if comments[i].parent == None {
      assert IsChain(comments, i, [i]);
    } else {
      assert ParentBefore(comments, order, k, comments[i].parent.value);
      var j :| 0 <= j < k && comments[order[j]].id == comments[i].parent.value;
      VisitedIsRooted(comments, order, j);
      var chain :| IsChain(comments, order[j], chain);
      var longer := [i] + chain;
      forall n | 0 <= n < |longer| - 1
        ensures comments[longer[n]].parent == Some(comments[longer[n + 1]].id)
      {
        if n > 0 {
          assert longer[n] == chain[n - 1] && longer[n + 1] == chain[n];
        }
      }
      assert IsChain(comments, i, longer);
    }
  }

  /** Once the stack is empty every comment with a chain has been visited. */
  lemma {:induction false} RootedIsVisited(comments: seq<Comment>, order: seq<nat>, i: nat, chain: seq<nat>)
    requires Visiting(comments, order, []) && IsChain(comments, i, chain)
    ensures i in order
    decreases |chain|
  {
    assert order + [] == order;
    if |chain| > 1 {
      var rest := chain[1..];
      assert IsChain(comments, chain[1], rest) by {
        forall n | 0 <= n < |rest| - 1
          ensures comments[rest[n]].parent == Some(comments[rest[n + 1]].id)
        {
          assert rest[n] == chain[n + 1] && rest[n + 1] == chain[n + 2];
        }
      }
      RootedIsVisited(comments, order, chain[1], rest);
      assert comments[chain[0]].parent == Some(comments[chain[0 + 1]].id);
    }
  }

  lemma CompleteMeansRooted(comments: seq<Comment>, order: seq<nat>)
    requires Visiting(comments, order, [])
    ensures |order| == |comments| <==> forall i: nat | i < |comments| :: Rooted(comments, i)
  {
    assert order + [] == order;
    Pigeonhole(order, |comments|);
    if forall i: nat | i < |comments| :: Rooted(comments, i) {
      forall i: nat | i < |comments|
        ensures i in order
      {
        assert Rooted(comments, i);
        var chain :| IsChain(comments, i, chain);
        RootedIsVisited(comments, order, i, chain);
      }
    }
    if |order| == |comments| {
      forall i: nat | i < |comments|
        ensures Rooted(comments, i)
      {
        assert i in order;
        var k :| 0 <= k < |order| && order[k] == i;
        VisitedIsRooted(comments, order, k);
      }
    }
  }

  // ---------------------------------------------------------------- the function

  function Known(replies: map<Uuid, seq<nat>>, parent: Uuid): seq<nat> {
    if parent in replies then replies[parent] else []
  }

  lemma {:induction false} ReverseCons(x: nat, rest: seq<nat>)
    ensures Reverse([x] + rest) == Reverse(rest) + [x]
  {
    assert ([x] + rest)[1..] == rest;
  }

  /** The reply index and the initial stack, both in reverse archive order. */
  method IndexReplies(comments: seq<Comment>) returns (replies: map<Uuid, seq<nat>>, stack: seq<nat>)
    ensures stack == Reverse(Children(comments, None))
    ensures forall p: Uuid :: Known(replies, p) == Reverse(Children(comments, Some(p)))
  {
    replies, stack := map[], [];
    var k: nat := |comments|;
    while k > 0
      invariant k <= |comments|
      invariant stack == Reverse(Children(comments, None, k))
      invariant forall p: Uuid :: Known(replies, p) == Reverse(Children(comments, Some(p), k))
    {
      ChildrenFrom(comments, k - 1);
      k := k - 1;
      match comments[k].parent {
        case None =>
          stack := stack + [k];
        case Some(p) =>
          replies := replies[p := Known(replies, p) + [k]];
      }
    }
  }

  /** One comment more at the front, in the reversed lists. */
  lemma {:induction false} ChildrenFrom(comments: seq<Comment>, k: nat)
    requires k < |comments|
    ensures forall parent :: Reverse(Children(comments, parent, k))
                          == Reverse(Children(comments, parent, k + 1)) + (if comments[k].parent == parent then [k] else [])
  {
    forall parent
      ensures Reverse(Children(comments, parent, k))
           == Reverse(Children(comments, parent, k + 1)) + (if comments[k].parent == parent then [k] else [])
    {
      ReverseCons(k, Children(comments, parent, k + 1));
      Empty(Reverse(Children(comments, parent, k + 1)));
    }
  }

  /** Pops a comment, visits it and pushes its replies until the stack is empty. */
  method Traverse(comments: seq<Comment>) returns (order: seq<nat>)
    requires UniqueIds(comments)
    ensures Visiting(comments, order, [])
    ensures order == Preorder(comments, Children(comments, None), |comments|)
  {
    var replies, stack := IndexReplies(comments);
    order := [];
    ghost var whole := Preorder(comments, Children(comments, None), |comments|);
    ghost var depth := StartWalk(comments, |comments|);
    while stack != []
      invariant Walking(comments, order, stack, depth, whole)
      decreases |comments| - |order|
    {
      var i := stack[|stack| - 1];
      depth := StepWalk(comments, order, stack, depth, whole);
      order := order + [i];
      stack := stack[..|stack| - 1] + Known(replies, comments[i].id);
    }
    EndWalk(comments, order, depth, whole);
  }

  ghost predicate Walking(comments: seq<Comment>, order: seq<nat>, stack: seq<nat>, depth: seq<nat>, whole: seq<nat>) {
    Visiting(comments, order, stack) && Scheduled(comments, order, stack, depth, whole)
  }

  lemma StartWalk(comments: seq<Comment>, levels: nat) returns (depth: seq<nat>)
    requires levels >= |comments|
    ensures var roots := Children(comments, None);
            Walking(comments, [], Reverse(roots), depth, Preorder(comments, roots, levels))
  {
    StartVisit(comments);
    depth := StartSchedule(comments, Children(comments, None), levels);
  }

  lemma StartSchedule(comments: seq<Comment>, roots: seq<nat>, n: nat) returns (depth: seq<nat>)
    requires Within(roots, |comments|) && n >= |comments|
    ensures Scheduled(comments, [], Reverse(roots), depth, Preorder(comments, roots, n))
  {
    depth := Repeat(n, |roots|);
    PushKids(comments, [], [], roots, n);
    Empty(Reverse(roots));
    Empty(depth);
    Empty(Preorder(comments, roots, n));
    Empty(Pending(comments, Reverse(roots), depth));
  }

  lemma Empty(s: seq<nat>)
    ensures [] + s == s && s + [] == s
  {
  }

  lemma StepWalk(comments: seq<Comment>, order: seq<nat>, stack: seq<nat>, depth: seq<nat>, whole: seq<nat>)
    returns (depth': seq<nat>)
    requires UniqueIds(comments) && stack != [] && Walking(comments, order, stack, depth, whole)
    ensures |order| < |comments|
    ensures var i := stack[|stack| - 1];
            i < |comments| &&
            Walking(comments, order + [i], stack[..|stack| - 1] + Reverse(Children(comments, Some(comments[i].id))), depth', whole)
  {
    RoomLeft(comments, order, stack);
    Visit(comments, order, stack);
    depth' := Reschedule(comments, order, stack, depth, whole);
  }

  lemma EndWalk(comments: seq<Comment>, order: seq<nat>, depth: seq<nat>, whole: seq<nat>)
    requires Walking(comments, order, [], depth, whole)
    ensures Visiting(comments, order, []) && order == whole
  {
    assert order + [] == order;
  }

  /** Each waiting comment still has levels for all comments not yet visited, and the rest of the preorder is pending. */
  ghost predicate Scheduled(comments: seq<Comment>, order: seq<nat>, stack: seq<nat>, depth: seq<nat>, whole: seq<nat>) {
    && |depth| == |stack| && Within(stack, |comments|)
    && (forall k | 0 <= k < |depth| :: depth[k] >= |comments| - |order|)
    && order + Pending(comments, stack, depth) == whole
  }

  lemma RoomLeft(comments: seq<Comment>, order: seq<nat>, stack: seq<nat>)
    requires Visiting(comments, order, stack) && stack != []
    ensures |order| < |comments|
  {
    Pigeonhole(order + stack, |comments|);
  }

  lemma Reschedule(comments: seq<Comment>, order: seq<nat>, stack: seq<nat>, depth: seq<nat>, whole: seq<nat>)
    returns (depth': seq<nat>)
    requires stack != [] && |order| < |comments| && Scheduled(comments, order, stack, depth, whole)
    ensures var i := stack[|stack| - 1];
            Scheduled(comments, order + [i], stack[..|stack| - 1] + Reverse(Children(comments, Some(comments[i].id))), depth', whole)
  {
    var top := |stack| - 1;
    var i, d := stack[top], depth[top] - 1;
    var kids := Children(comments, Some(comments[i].id));
    depth' := depth[..top] + Repeat(d, |kids|);
    PushKids(comments, stack[..top], depth[..top], kids, d);
    assert Replies(comments, i, depth[top]) == Preorder(comments, kids, d);
    Associate(order, [i], Preorder(comments, kids, d), Pending(comments, stack[..top], depth[..top]));
    Deep(depth, d, top, |kids|, |comments| - |order|);
  }

  lemma Deep(depth: seq<nat>, d: nat, top: nat, n: nat, least: int)
    requires top < |depth| && (forall k | 0 <= k < |depth| :: depth[k] >= least) && d >= least - 1
    ensures var e := depth[..top] + Repeat(d, n); forall k | 0 <= k < |e| :: e[k] >= least - 1
  {
  }

  /**
    * Succeeds exactly when ids are unique and every parent chain ends at a top-level comment. The
    * result is then every comment once, in the recursive preorder with siblings in archive order,
    * so each parent precedes its replies.
    */
  method ParentFirstOrder(comments: seq<Comment>) returns (r: Option<seq<nat>>)
    ensures r.Some? <==> UniqueIds(comments) && forall i: nat | i < |comments| :: Rooted(comments, i)
    ensures r.Some? ==>
              && r.value == Preorder(comments, Children(comments, None), |comments|)
              && |r.value| == |comments| && Distinct(r.value) && Within(r.value, |comments|)
              && ParentFirst(comments, r.value)
  {
    var unique := KeysDiffer(comments, (c: Comment) => c.id);
    assert unique <==> UniqueIds(comments);
    if !unique {
      return None;
    }
    var order := Traverse(comments);
    CompleteMeansRooted(comments, order);
    assert order + [] == order;
    if |order| != |comments| {
      return None;
    }
    return Some(order);
  }

  lemma Associate(a: seq<nat>, b: seq<nat>, c: seq<nat>, d: seq<nat>)
    ensures a + (b + c + d) == (a + b) + (c + d)
  {
  }

  /** Looking more levels down than there are comments adds nothing: the preorder has no depth limit. */
  lemma {:induction false} PreorderHasNoDepthLimit(comments: seq<Comment>, levels: nat)
    requires UniqueIds(comments) && levels >= |comments|
    ensures Preorder(comments, Children(comments, None), levels) == Preorder(comments, Children(comments, None), |comments|)
  {
    var roots := Children(comments, None);
    var a, b := Preorder(comments, roots, |comments|), Preorder(comments, roots, levels);
    var order: seq<nat>, stack: seq<nat> := [], Reverse(roots);
    var depth := StartWalk(comments, |comments|);
    var deeper := StartWalk(comments, levels);
    while stack != []
      invariant Walking(comments, order, stack, depth, a) && Walking(comments, order, stack, deeper, b)
      decreases |comments| - |order|
    {
      var i := stack[|stack| - 1];
      depth := StepWalk(comments, order, stack, depth, a);
      deeper := StepWalk(comments, order, stack, deeper, b);
      order, stack := order + [i], stack[..|stack| - 1] + Reverse(Children(comments, Some(comments[i].id)));
    }
    EndWalk(comments, order, depth, a);
    EndWalk(comments, order, deeper, b);
  }
}
