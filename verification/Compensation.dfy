/**
  * `compensate_import`: tasks, then documents newest first, then stored objects once every row purge
  * has succeeded. Which calls fail is an input; a document with a row below it is refused by the
  * database itself.
  */
module Compensation {
  import opened Options

  datatype Refs = Refs(documents: seq<nat>, tasks: seq<nat>, storedKeys: seq<string>)

  datatype Outcome = Outcome(failed: nat, skipped: nat)

  /** A document or task with the storage keys of its attachments. */
  datatype Row = Row(parent: Option<nat>, keys: seq<string>)

  type Table = map<nat, Row>

  datatype Purge = Removed(keys: seq<string>) | Absent | Broken

  ghost predicate NoFaults(fails: nat -> bool) {
    forall n: nat :: !fails(n)
  }

  /** The parent foreign key: a parent is a row of the same table. */
  ghost predicate Integrity(rows: Table) {
    forall c | c in rows && rows[c].parent.Some? :: rows[c].parent.value in rows
  }

  predicate Childless(rows: Table, id: nat) {
    forall c | c in rows && c != id :: rows[c].parent != Some(id)
  }

  /** `purge_imported_task` detaches the children and removes the task. */
  function Detached(rows: Table, id: nat): Table {
    map c | c in rows && c != id :: if rows[c].parent == Some(id) then rows[c].(parent := None) else rows[c]
  }

  // ---------------------------------------------------------------- what a list of purges leaves

  /** From `before` to `now`, only rows among `ids` went, each with its keys in `keys`. */
  ghost predicate Dropped(before: Table, now: Table, ids: seq<nat>, keys: seq<string>) {
    && now.Keys <= before.Keys
    && (forall id | id in now :: now[id].keys == before[id].keys)
    && (forall id | id in before && id !in now :: id in ids && forall k | k in before[id].keys :: k in keys)
    && (forall k | k in keys :: exists id :: id in before && id !in now && k in before[id].keys)
  }

  /** A row loses its parent exactly when the parent went. */
  ghost predicate Orphaned(before: Table, now: Table) {
    && now.Keys <= before.Keys
    && forall id | id in now ::
         now[id].parent == if before[id].parent.Some? && before[id].parent.value !in now then None else before[id].parent
  }

  ghost predicate Untouched(before: Table, now: Table) {
    now.Keys <= before.Keys && forall id | id in now :: now[id] == before[id]
  }

  /** The rows from `n` on are gone. */
  ghost predicate PassedGone(ids: seq<nat>, n: nat, rows: Table) {
    forall m | n <= m < |ids| :: ids[m] !in rows
  }

  lemma PassOne(ids: seq<nat>, n: nat, before: Table, now: Table)
    requires n < |ids| && PassedGone(ids, n + 1, before) && now.Keys <= before.Keys && ids[n] !in now
    ensures PassedGone(ids, n, now)
  {
  }

  lemma AllGone(ids: seq<nat>, rows: Table)
    ensures PassedGone(ids, 0, rows) ==> forall id | id in ids :: id !in rows
  {
  }

  lemma NothingDropped(rows: Table, ids: seq<nat>)
    ensures Dropped(rows, rows, ids, []) && PassedGone(ids, |ids|, rows) && Untouched(rows, rows)
    ensures Integrity(rows) ==> Orphaned(rows, rows)
  {
  }

  lemma DropOne(before: Table, now: Table, next: Table, ids: seq<nat>, keys: seq<string>, id: nat)
    requires Dropped(before, now, ids, keys) && id in now && id in ids
    requires next.Keys == now.Keys - {id} && forall c | c in next :: next[c].keys == now[c].keys
    ensures Dropped(before, next, ids, keys + now[id].keys)
  {
    forall k | k in keys + now[id].keys
      ensures exists x :: x in before && x !in next && k in before[x].keys
    {
      if k in keys {
        var x :| x in before && x !in now && k in before[x].keys;
      } else {
        assert id in before && id !in next && k in before[id].keys;
      }
    }
  }

  lemma DetachOne(before: Table, now: Table, id: nat)
    requires Integrity(now) && Orphaned(before, now) && id in now
    ensures Orphaned(before, Detached(now, id)) && Integrity(Detached(now, id))
  {
  }

  lemma OneFewer(rows: Table, next: Table, id: nat)
    requires id in rows && next.Keys == rows.Keys - {id}
    ensures |rows| == |next| + 1
  {
    assert rows.Keys == next.Keys + {id};
  }

  // ---------------------------------------------------------------- order

  /** `gone` are the removed rows in order: each stood alone when it went, every row below it gone before. */
  ghost predicate ChildrenFirst(before: Table, now: Table, gone: seq<nat>) {
    && now.Keys <= before.Keys
    && (forall id :: id in gone <==> id in before && id !in now)
    && (forall i, j | 0 <= i < j < |gone| :: gone[i] != gone[j])
    && forall j, c | 0 <= j < |gone| && c in before && c != gone[j] && before[c].parent == Some(gone[j]) :: c in gone[..j]
  }

  lemma RemoveLast(before: Table, now: Table, gone: seq<nat>, id: nat)
    requires ChildrenFirst(before, now, gone) && Untouched(before, now) && id in now && Childless(now, id)
    ensures ChildrenFirst(before, now - {id}, gone + [id])
  {
    var next, log := now - {id}, gone + [id];
    forall j, c | 0 <= j < |log| && c in before && c != log[j] && before[c].parent == Some(log[j])
      ensures c in log[..j]
    {
      if j < |gone| {
        assert log[..j] == gone[..j];
      } else {
        assert log[..j] == gone;
      }
    }
  }

  /** Every row below a listed row is itself listed, and later: what newest-first removal needs. */
  ghost predicate RemovableFrom(rows: Table, ids: seq<nat>, n: nat) {
    forall m, c | n <= m < |ids| && c in rows && c != ids[m] && rows[c].parent == Some(ids[m]) :: ListedAfter(ids, m, c)
  }

  ghost predicate ListedAfter(ids: seq<nat>, m: nat, c: nat) {
    exists k :: m < k < |ids| && ids[k] == c
  }

  ghost predicate Removable(rows: Table, ids: seq<nat>) {
    RemovableFrom(rows, ids, 0)
  }

  /** Only listed rows from `n` on have gone. */
  ghost predicate GoneFrom(before: Table, now: Table, ids: seq<nat>, n: nat) {
    forall id | id in before && id !in now :: exists k :: n <= k < |ids| && ids[k] == id
  }

  lemma GoneOne(before: Table, now: Table, next: Table, ids: seq<nat>, n: nat)
    requires n < |ids| && GoneFrom(before, now, ids, n + 1) && next.Keys <= now.Keys && now.Keys - {ids[n]} <= next.Keys
    ensures GoneFrom(before, next, ids, n)
  {
    forall id | id in before && id !in next
      ensures exists k :: n <= k < |ids| && ids[k] == id
    {
      if id !in now {
        var k :| n + 1 <= k < |ids| && ids[k] == id;
      } else {
        assert ids[n] == id;
      }
    }
  }

  /** While nothing has failed, the next listed row can go, or is gone already, exactly when its children are listed after it. */
  lemma NextRemovable(before: Table, now: Table, ids: seq<nat>, n: nat)
    requires n < |ids| && Integrity(before) && Untouched(before, now) && GoneFrom(before, now, ids, n + 1)
    requires PassedGone(ids, n + 1, now) && RemovableFrom(before, ids, n + 1)
    ensures RemovableFrom(before, ids, n) <==> ids[n] !in now || Childless(now, ids[n])
  {
    var x := ids[n];
    if x in now && !Childless(now, x) {
      var c :| c in now && c != x && now[c].parent == Some(x);
      assert c in before && before[c].parent == Some(x);
      assert !ListedAfter(ids, n, c);
    } else {
      forall c | c in before && c != x && before[c].parent == Some(x)
        ensures ListedAfter(ids, n, c)
      {
        if x in now {
          assert c !in now;
          var k :| n + 1 <= k < |ids| && ids[k] == c;
        } else {
          var k :| n + 1 <= k < |ids| && ids[k] == x;
          assert ListedAfter(ids, k, c);
          var l :| k < l < |ids| && ids[l] == c;
        }
      }
    }
  }

  lemma RemovableStep(rows: Table, ids: seq<nat>, n: nat)
    ensures RemovableFrom(rows, ids, n) ==> RemovableFrom(rows, ids, n + 1)
    ensures RemovableFrom(rows, ids, |ids|) && GoneFrom(rows, rows, ids, n)
  {
  }

  /** A row that a user hung below an imported document keeps it from being undone, whatever the order. */
  lemma ForeignChildBlocks()
    ensures !Removable(map[1 := Row(None, []), 2 := Row(Some(1), [])], [1])
  {
    var rows, ids := map[1 := Row(None, []), 2 := Row(Some(1), [])], [1];
    assert 2 in rows && rows[2].parent == Some(ids[0]);
    assert !ListedAfter(ids, 0, 2);
  }

  /** A parent and its child go when the child was created later, and not when it was listed first. */
  lemma OrderMatters()
    ensures Removable(map[1 := Row(None, []), 2 := Row(Some(1), [])], [1, 2])
    ensures !Removable(map[1 := Row(None, []), 2 := Row(Some(1), [])], [2, 1])
  {
    var rows := map[1 := Row(None, []), 2 := Row(Some(1), [])];
    assert [1, 2][1] == 2;
    assert ListedAfter([1, 2], 0, 2);
    var back := [2, 1];
    assert 2 in rows && rows[2].parent == Some(back[1]);
    assert !ListedAfter(back, 1, 2);
  }

  // ---------------------------------------------------------------- what is named

  /** A stored key, or a key of an attachment of a named row. */
  ghost predicate NamedKey(refs: Refs, documents: Table, tasks: Table, key: string) {
    || key in refs.storedKeys
    || (exists id :: id in documents && id in refs.documents && key in documents[id].keys)
    || (exists id :: id in tasks && id in refs.tasks && key in tasks[id].keys)
  }

  lemma KeysAreNamed(refs: Refs, documents: Table, tasks: Table, documents': Table, tasks': Table, documentKeys: seq<string>, taskKeys: seq<string>)
    requires Dropped(documents, documents', refs.documents, documentKeys) && Dropped(tasks, tasks', refs.tasks, taskKeys)
    ensures forall k | k in refs.storedKeys + taskKeys + documentKeys :: NamedKey(refs, documents, tasks, k)
    ensures (forall id | id in refs.documents :: id !in documents') && (forall id | id in refs.tasks :: id !in tasks') ==>
      forall k | NamedKey(refs, documents, tasks, k) :: k in refs.storedKeys + taskKeys + documentKeys
  {
    forall k | k in refs.storedKeys + taskKeys + documentKeys
      ensures NamedKey(refs, documents, tasks, k)
    {
      if k in taskKeys {
        var id :| id in tasks && id !in tasks' && k in tasks[id].keys;
        assert id in refs.tasks;
      } else if k in documentKeys {
        var id :| id in documents && id !in documents' && k in documents[id].keys;
        assert id in refs.documents;
      }
    }
  }

  // ---------------------------------------------------------------- the store

  class Store {
    var documents: Table
    var tasks: Table
    var objects: set<string>
    const fails: nat -> bool
    var calls: nat
    /** The documents removed so far, in order. */
    ghost var removed: seq<nat>

    ghost predicate Valid()
      reads this
    {
      Integrity(documents) && Integrity(tasks)
    }

    constructor (documents: Table, tasks: Table, objects: set<string>, fails: nat -> bool)
      requires Integrity(documents) && Integrity(tasks)
      ensures Valid() && this.documents == documents && this.tasks == tasks && this.objects == objects && this.fails == fails && removed == []
    {
      this.documents, this.tasks, this.objects, this.fails, this.calls, this.removed := documents, tasks, objects, fails, 0, [];
    }

    /** `purge_imported_document`: the row and its attachment rows go together, unless a row below it stands. */
    method PurgeDocument(id: nat) returns (r: Purge)
      requires Valid()
      modifies this
      ensures Valid() && tasks == old(tasks) && objects == old(objects)
      ensures r.Broken? <==> fails(old(calls)) || (id in old(documents) && !Childless(old(documents), id))
      ensures r.Absent? <==> !fails(old(calls)) && id !in old(documents)
      ensures r.Removed? ==> documents == old(documents) - {id} && r.keys == old(documents)[id].keys && removed == old(removed) + [id]
      ensures !r.Removed? ==> documents == old(documents) && removed == old(removed)
    {
      var broken := fails(calls);
      calls := calls + 1;
      if broken {
        r := Broken;
      } else if id !in documents {
        r := Absent;
      } else if !Childless(documents, id) {
        r := Broken;
      } else {
        r := Removed(documents[id].keys);
        documents := documents - {id};
        removed := removed + [id];
      }
    }

    /** `purge_imported_task`: the children are detached, so nothing stands in its way. */
    method PurgeTask(id: nat) returns (r: Purge)
      requires Valid()
      modifies this
      ensures Valid() && documents == old(documents) && objects == old(objects) && removed == old(removed)
      ensures r.Broken? <==> fails(old(calls))
      ensures r.Absent? <==> !fails(old(calls)) && id !in old(tasks)
      ensures r.Removed? ==> tasks == Detached(old(tasks), id) && r.keys == old(tasks)[id].keys
      ensures !r.Removed? ==> tasks == old(tasks)
    {
      var broken := fails(calls);
      calls := calls + 1;
      if broken {
        r := Broken;
      } else if id !in tasks {
        r := Absent;
      } else {
        r := Removed(tasks[id].keys);
        tasks := Detached(tasks, id);
      }
    }

    method PurgeKey(key: string) returns (ok: bool)
      requires Valid()
      modifies this
      ensures Valid() && documents == old(documents) && tasks == old(tasks) && removed == old(removed)
      ensures objects == if ok then old(objects) - {key} else old(objects)
      ensures ok <==> !fails(old(calls))
    {
      ok := !fails(calls);
      calls := calls + 1;
      if ok {
        objects := objects - {key};
      }
    }

    /** The tasks, newest first. */
    method PurgeTasks(ids: seq<nat>) returns (keys: seq<string>, failed: nat, skipped: nat)
      requires Valid()
      modifies this
      ensures Valid() && documents == old(documents) && objects == old(objects) && removed == old(removed)
      ensures Dropped(old(tasks), tasks, ids, keys) && Orphaned(old(tasks), tasks)
      ensures failed == 0 ==> forall id | id in ids :: id !in tasks
      ensures |old(tasks)| == |tasks| + (|ids| - skipped - failed)
      ensures NoFaults(fails) ==> failed == 0
    {
      hide Dropped, Orphaned, PassedGone, Integrity;
      keys, failed, skipped := [], 0, 0;
      NothingDropped(tasks, ids);
      for n := |ids| downto 0
        invariant Valid() && documents == old(documents) && objects == old(objects) && removed == old(removed)
        invariant Dropped(old(tasks), tasks, ids, keys) && Orphaned(old(tasks), tasks)
        invariant failed == 0 ==> PassedGone(ids, n, tasks)
        invariant |old(tasks)| == |tasks| + (|ids| - n - skipped - failed)
        invariant NoFaults(fails) ==> failed == 0
      {
        ghost var before := tasks;
        var r := PurgeTask(ids[n]);
        if r.Removed? {
          DropOne(old(tasks), before, tasks, ids, keys, ids[n]);
          DetachOne(old(tasks), before, ids[n]);
          OneFewer(before, tasks, ids[n]);
          keys := keys + r.keys;
        } else if r.Absent? {
          skipped := skipped + 1;
        } else {
          failed := failed + 1;
        }
        if failed == 0 {
          PassOne(ids, n, before, tasks);
        }
      }
      AllGone(ids, tasks);
    }

    /** The documents, newest first: a failed purge does not stop the loop. */
    method PurgeDocuments(ids: seq<nat>) returns (keys: seq<string>, failed: nat, skipped: nat, ghost gone: seq<nat>)
      requires Valid()
      modifies this
      ensures Valid() && tasks == old(tasks) && objects == old(objects)
      ensures Dropped(old(documents), documents, ids, keys) && Untouched(old(documents), documents)
      ensures removed == old(removed) + gone && ChildrenFirst(old(documents), documents, gone)
      ensures failed == 0 ==> forall id | id in ids :: id !in documents
      ensures |old(documents)| == |documents| + (|ids| - skipped - failed)
      ensures failed == 0 ==> Removable(old(documents), ids)
      ensures NoFaults(fails) && Removable(old(documents), ids) ==> failed == 0
    {
      hide Dropped, Untouched, PassedGone, Integrity, ChildrenFirst, RemovableFrom, GoneFrom, Childless;
      keys, failed, skipped, gone := [], 0, 0, [];
      NothingDropped(documents, ids);
      NoneGone(documents);
      RemovableStep(documents, ids, |ids|);
      for n := |ids| downto 0
        invariant Valid() && tasks == old(tasks) && objects == old(objects)
        invariant Dropped(old(documents), documents, ids, keys) && Untouched(old(documents), documents)
        invariant removed == old(removed) + gone && ChildrenFirst(old(documents), documents, gone)
        invariant GoneFrom(old(documents), documents, ids, n)
        invariant failed == 0 ==> PassedGone(ids, n, documents) && RemovableFrom(old(documents), ids, n)
        invariant |old(documents)| == |documents| + (|ids| - n - skipped - failed)
        invariant NoFaults(fails) && RemovableFrom(old(documents), ids, n) ==> failed == 0
      {
        ghost var before, was := documents, failed;
        RemovableStep(old(documents), ids, n);
        if failed == 0 {
          NextRemovable(old(documents), before, ids, n);
        }
        var r := PurgeDocument(ids[n]);
        GoneOne(old(documents), before, documents, ids, n);
        if r.Removed? {
          RemoveLast(old(documents), before, gone, ids[n]);
          StillUntouched(old(documents), before, ids[n]);
          DropOne(old(documents), before, documents, ids, keys, ids[n]);
          OneFewer(before, documents, ids[n]);
          keys := keys + r.keys;
          gone := gone + [ids[n]];
        } else if r.Absent? {
          skipped := skipped + 1;
        } else {
          failed := failed + 1;
        }
        if failed == 0 {
          PassOne(ids, n, before, documents);
        }
      }
      AllGone(ids, documents);
    }

    method PurgeKeys(keys: seq<string>) returns (failed: nat)
      requires Valid()
      modifies this
      ensures Valid() && documents == old(documents) && tasks == old(tasks) && removed == old(removed) && objects <= old(objects)
      ensures forall k | k in old(objects) && k !in objects :: k in keys
      ensures failed == 0 ==> forall k | k in keys :: k !in objects
      ensures NoFaults(fails) ==> failed == 0
    {
      hide Integrity;
      failed := 0;
      for n := 0 to |keys|
        invariant Valid() && documents == old(documents) && tasks == old(tasks) && removed == old(removed) && objects <= old(objects)
        invariant forall k | k in old(objects) && k !in objects :: k in keys
        invariant failed == 0 ==> forall m | 0 <= m < n :: keys[m] !in objects
        invariant NoFaults(fails) ==> failed == 0
      {
        var ok := PurgeKey(keys[n]);
        if !ok {
          failed := failed + 1;
        }
      }
    }

    /** `compensate_import`. */
    method Compensate(refs: Refs) returns (out: Outcome, ghost gone: seq<nat>)
      requires Valid()
      modifies this
      ensures Valid()
      // nothing but what the references name is touched
      ensures forall id | id in old(documents) && id !in refs.documents :: id in documents
      ensures forall id | id in old(tasks) && id !in refs.tasks :: id in tasks
      ensures Untouched(old(documents), documents) && Orphaned(old(tasks), tasks) && forall id | id in tasks :: tasks[id].keys == old(tasks)[id].keys
      ensures objects <= old(objects) && forall k | k in old(objects) && k !in objects :: NamedKey(refs, old(documents), old(tasks), k)
      // whatever fails, no document goes before a row below it
      ensures removed == old(removed) + gone && ChildrenFirst(old(documents), documents, gone)
      // objects wait for the rows
      ensures (exists id :: id in refs.documents && id in documents) || (exists id :: id in refs.tasks && id in tasks) ==>
        out.failed > 0 && objects == old(objects)
      // no failure means that everything named is gone
      ensures out.failed == 0 ==> (forall id | id in refs.documents :: id !in documents) && (forall id | id in refs.tasks :: id !in tasks)
      ensures out.failed == 0 ==> forall k | NamedKey(refs, old(documents), old(tasks), k) :: k !in objects
      ensures out.failed == 0 ==> |old(documents)| - |documents| + |old(tasks)| - |tasks| + out.skipped == |refs.tasks| + |refs.documents|
      // and it is exactly the rows below the named documents that decide it
      ensures out.failed == 0 ==> Removable(old(documents), refs.documents)
      ensures NoFaults(fails) ==> (out.failed == 0 <==> Removable(old(documents), refs.documents))
    {
      hide NoFaults, Integrity, Orphaned, ChildrenFirst, RemovableFrom;
      var taskKeys, taskFailed, taskSkipped := PurgeTasks(refs.tasks);
      var documentKeys, documentFailed, documentSkipped;
      documentKeys, documentFailed, documentSkipped, gone := PurgeDocuments(refs.documents);
      KeysAreNamed(refs, old(documents), old(tasks), documents, tasks, documentKeys, taskKeys);
      var failed := taskFailed + documentFailed;
      if failed == 0 {
        failed := PurgeKeys(refs.storedKeys + taskKeys + documentKeys);
      }
      out := Outcome(failed, taskSkipped + documentSkipped);
    }

    /** Compensation is idempotent: once it went through, doing it again finds every row gone and changes nothing. */
    method CompensateTwice(refs: Refs)
      returns (first: Outcome, second: Outcome, ghost documents1: Table, ghost tasks1: Table, ghost objects1: set<string>)
      requires Valid()
      modifies this
      ensures Valid()
      ensures first.failed == 0 ==> documents == documents1 && tasks == tasks1 && objects == objects1
      ensures first.failed == 0 && second.failed == 0 ==> second.skipped == |refs.tasks| + |refs.documents|
      ensures NoFaults(fails) && Removable(old(documents), refs.documents) ==> second == Outcome(0, |refs.tasks| + |refs.documents|)
    {
      hide NoFaults, ChildrenFirst;
      ghost var gone;
      first, gone := Compensate(refs);
      documents1, tasks1, objects1 := documents, tasks, objects;
      if first.failed == 0 {
        GoneIsRemovable(documents, refs.documents);
      }
      second, gone := Compensate(refs);
      if first.failed == 0 {
        Settled(refs, documents1, documents, tasks1, tasks, objects1, objects);
      }
    }
  }

  lemma NoneGone(rows: Table)
    ensures ChildrenFirst(rows, rows, [])
  {
  }

  lemma StillUntouched(before: Table, now: Table, id: nat)
    requires Untouched(before, now)
    ensures Untouched(before, now - {id})
  {
  }

  lemma GoneIsRemovable(rows: Table, ids: seq<nat>)
    requires Integrity(rows) && (forall id | id in ids :: id !in rows)
    ensures Removable(rows, ids)
  {
  }

  lemma Settled(refs: Refs, documents: Table, documents': Table, tasks: Table, tasks': Table, objects: set<string>, left: set<string>)
    requires Integrity(tasks) && (forall id | id in refs.documents :: id !in documents) && (forall id | id in refs.tasks :: id !in tasks)
    requires forall k | k in refs.storedKeys :: k !in objects
    requires Untouched(documents, documents') && (forall id | id in documents && id !in refs.documents :: id in documents')
    requires Orphaned(tasks, tasks') && (forall id | id in tasks && id !in refs.tasks :: id in tasks') && forall id | id in tasks' :: tasks'[id].keys == tasks[id].keys
    requires left <= objects && forall k | k in objects && k !in left :: NamedKey(refs, documents, tasks, k)
    ensures documents' == documents && tasks' == tasks && left == objects
  {
    assert documents'.Keys == documents.Keys && tasks'.Keys == tasks.Keys;
    forall id | id in tasks
      ensures tasks'[id] == tasks[id]
    {
      assert tasks'[id].parent == tasks[id].parent && tasks'[id].keys == tasks[id].keys;
    }
    assert forall k | NamedKey(refs, documents, tasks, k) :: k in refs.storedKeys;
  }
}
