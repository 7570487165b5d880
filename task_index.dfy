/**
  The persistence collaborator's view of the Task class, as the handlers use
  it: equality filters on `owner` and `status`, and results in descending
  `createdAt` order. The store keeps its ids in that order (newest first);
  a query is a filter of that sequence.
 */
module TaskIndex {
  import opened TaskModel

  /** `query.equalTo("owner", caller)` and, when given, `query.equalTo("status", status)`. */
  predicate Matches(t: Task, caller: UserId, status: Option<string>)
  {
    t.attrs.owner == Some(caller) && (status.None? || t.attrs.status == Some(Str(status.value)))
  }

  /** The owner-scoped lookup `query.equalTo("owner", caller); query.get(id)` finds `id`. */
  predicate Owns(tasks: map<Id, Task>, caller: UserId, id: Id)
  {
    id in tasks && Matches(tasks[id], caller, None)
  }

  /**
    `s` lists stored ids newest first without repetition: its head is stored,
    differs from every later id and is at least as new, and the rest is again
    such a list.
   */
  ghost predicate Ordered(s: seq<Id>, tasks: map<Id, Task>)
    decreases |s|
  {
    s == [] ||
    (s[0] in tasks
     && (forall x :: x in s[1..] ==> x != s[0] && x in tasks && tasks[x].createdAt <= tasks[s[0]].createdAt)
     && Ordered(s[1..], tasks))
  }

  /** The same property stated over all pairs of positions. */
  ghost predicate NewestFirst(s: seq<Id>, tasks: map<Id, Task>)
  {
    (forall i :: 0 <= i < |s| ==> s[i] in tasks)
    && (forall i, j :: 0 <= i < j < |s| ==> s[i] != s[j] && tasks[s[j]].createdAt <= tasks[s[i]].createdAt)
  }

  lemma {:induction false} OrderedIsNewestFirst(s: seq<Id>, tasks: map<Id, Task>)
    requires Ordered(s, tasks)
    ensures NewestFirst(s, tasks)
    decreases |s|
  {
    if s != [] {
      OrderedIsNewestFirst(s[1..], tasks);
      forall i, j | 0 <= i < j < |s|
        ensures s[i] != s[j] && tasks[s[j]].createdAt <= tasks[s[i]].createdAt
      {
        assert s[j] == s[1..][j - 1];
        if i > 0 {
          assert s[i] == s[1..][i - 1];
        }
      }
    }
  }

  lemma {:induction false} NewestFirstIsOrdered(s: seq<Id>, tasks: map<Id, Task>)
    requires NewestFirst(s, tasks)
    ensures Ordered(s, tasks)
    decreases |s|
  {
    if s != [] {
      var rest := s[1..];
      assert NewestFirst(rest, tasks) by {
        forall i, j | 0 <= i < j < |rest|
          ensures rest[i] != rest[j] && tasks[rest[j]].createdAt <= tasks[rest[i]].createdAt
        {
          assert rest[i] == s[i + 1] && rest[j] == s[j + 1];
        }
      }
      NewestFirstIsOrdered(rest, tasks);
      forall x | x in rest
        ensures x != s[0] && x in tasks && tasks[x].createdAt <= tasks[s[0]].createdAt
      {
        var k :| 0 <= k < |rest| && rest[k] == x;
        assert s[k + 1] == x;
      }
    }
  }

  /** Every id of an ordered list is stored. */
  lemma {:induction false} OrderedStored(s: seq<Id>, tasks: map<Id, Task>)
    requires Ordered(s, tasks)
    ensures forall x :: x in s ==> x in tasks
    decreases |s|
  {
    if s != [] {
      OrderedStored(s[1..], tasks);
      assert forall x :: x in s ==> x == s[0] || x in s[1..];
    }
  }

  /** Being ordered depends only on the `createdAt` of the listed ids. */
  lemma {:induction false} OrderedTransfer(s: seq<Id>, tasks: map<Id, Task>, tasks': map<Id, Task>)
    requires Ordered(s, tasks)
    requires forall x :: x in s ==> x in tasks && x in tasks' && tasks'[x].createdAt == tasks[x].createdAt
    ensures Ordered(s, tasks')
    decreases |s|
  {
    if s != [] {
      assert forall x :: x in s[1..] ==> x in s;
      OrderedTransfer(s[1..], tasks, tasks');
    }
  }

  /** `order` is the descending-`createdAt` index of all of `tasks`. */
  ghost predicate Indexes(order: seq<Id>, tasks: map<Id, Task>)
  {
    Ordered(order, tasks) && forall id :: id in tasks ==> id in order
  }

  /** The ids of `s` that `keep` accepts, in the order of `s`. */
  function Filter(s: seq<Id>, keep: Id -> bool): (r: seq<Id>)
    ensures forall x :: x in r <==> x in s && keep(x)
    ensures |r| <= |s|
  {
    if s == [] then []
    else (if keep(s[0]) then [s[0]] else []) + Filter(s[1..], keep)
  }

  /** Filtering an ordered list keeps it ordered. */
  lemma {:induction false} FilterOrdered(s: seq<Id>, keep: Id -> bool, tasks: map<Id, Task>)
    requires Ordered(s, tasks)
    ensures Ordered(Filter(s, keep), tasks)
    decreases |s|
  {
    if s != [] {
      var rest := Filter(s[1..], keep);
      FilterOrdered(s[1..], keep, tasks);
      if keep(s[0]) {
        var r := [s[0]] + rest;
        assert Filter(s, keep) == r;
        assert r[1..] == rest;
      } else {
        assert Filter(s, keep) == rest;
      }
    }
  }

  /** `order` with a new id placed where its `createdAt` belongs; it goes before older ties. */
  function Insert(order: seq<Id>, tasks: map<Id, Task>, id: Id, at: Stamp): (r: seq<Id>)
    requires Ordered(order, tasks)
    ensures |r| == |order| + 1
    ensures forall x :: x in r <==> x in order || x == id
    decreases |order|
  {
    if order == [] || at >= tasks[order[0]].createdAt then [id] + order
    else [order[0]] + Insert(order[1..], tasks, id, at)
  }

  /** Inserting a fresh record keeps the list ordered. */
  lemma {:induction false} InsertOrdered(order: seq<Id>, tasks: map<Id, Task>, id: Id, t: Task)
    requires Ordered(order, tasks) && id !in tasks
    ensures Ordered(Insert(order, tasks, id, t.createdAt), tasks[id := t])
    decreases |order|
  {
    var ts := tasks[id := t];
    var r := Insert(order, tasks, id, t.createdAt);
    OrderedStored(order, tasks);
    OrderedTransfer(order, tasks, ts);
    if order == [] || t.createdAt >= tasks[order[0]].createdAt {
      assert r == [id] + order && r[1..] == order;
      forall x | x in order
        ensures x != id && x in ts && ts[x].createdAt <= ts[id].createdAt
      {
        assert x == order[0] || x in order[1..];
      }
    } else {
      var rest := Insert(order[1..], tasks, id, t.createdAt);
      assert r == [order[0]] + rest && r[1..] == rest;
      InsertOrdered(order[1..], tasks, id, t);
    }
  }

  /** The descending-`createdAt` results of a query under the given filters. */
  function Select(order: seq<Id>, tasks: map<Id, Task>, caller: UserId, status: Option<string>): (r: seq<Id>)
    requires Indexes(order, tasks)
    ensures forall x :: x in r <==> x in tasks && Matches(tasks[x], caller, status)
    ensures Ordered(r, tasks)
  {
    var keep := x => x in tasks && Matches(tasks[x], caller, status);
    FilterOrdered(order, keep, tasks);
    Filter(order, keep)
  }

  /** The index with one id taken out (`destroy`). */
  function Remove(order: seq<Id>, id: Id): (r: seq<Id>)
    ensures forall x :: x in r <==> x in order && x != id
  {
    Filter(order, x => x != id)
  }

  /** Removing a record keeps the index complete and ordered. */
  lemma RemoveIndexes(order: seq<Id>, tasks: map<Id, Task>, id: Id)
    requires Indexes(order, tasks)
    ensures Indexes(Remove(order, id), tasks - {id})
  {
    var r := Remove(order, id);
    FilterOrdered(order, x => x != id, tasks);
    OrderedStored(order, tasks);
    OrderedTransfer(r, tasks, tasks - {id});
  }

  /** Inserting a fresh record keeps the index complete and ordered. */
  lemma InsertIndexes(order: seq<Id>, tasks: map<Id, Task>, id: Id, t: Task)
    requires Indexes(order, tasks) && id !in tasks
    ensures Indexes(Insert(order, tasks, id, t.createdAt), tasks[id := t])
  {
    InsertOrdered(order, tasks, id, t);
  }

  /** Rewriting a stored record's attributes while keeping its `createdAt` keeps the index. */
  lemma UpdateIndexes(order: seq<Id>, tasks: map<Id, Task>, id: Id, a: Attrs)
    requires Indexes(order, tasks) && id in tasks
    ensures Indexes(order, tasks[id := Task(a, tasks[id].createdAt)])
  {
    OrderedStored(order, tasks);
    OrderedTransfer(order, tasks, tasks[id := Task(a, tasks[id].createdAt)]);
  }

  /** The ids matching the filters, as a set: what `query.count()` counts. */
  ghost function MatchingIds(tasks: map<Id, Task>, caller: UserId, status: Option<string>): set<Id>
  {
    set id | id in tasks && Matches(tasks[id], caller, status)
  }

  /** The set of elements of a list. */
  ghost function Elems(s: seq<Id>): set<Id>
  {
    set x | x in s
  }

  /** An ordered list, having no repetition, has as many elements as its set of elements. */
  lemma {:induction false} OrderedCard(s: seq<Id>, tasks: map<Id, Task>)
    requires Ordered(s, tasks)
    ensures |Elems(s)| == |s|
    decreases |s|
  {
    if s != [] {
      OrderedCard(s[1..], tasks);
      assert Elems(s) == {s[0]} + Elems(s[1..]);
      assert s[0] !in Elems(s[1..]);
    }
  }

  /** The number of query results is the count of matching records. */
  lemma SelectCount(order: seq<Id>, tasks: map<Id, Task>, caller: UserId, status: Option<string>)
    requires Indexes(order, tasks)
    ensures |Select(order, tasks, caller, status)| == |MatchingIds(tasks, caller, status)|
  {
    var r := Select(order, tasks, caller, status);
    OrderedCard(r, tasks);
    assert Elems(r) == MatchingIds(tasks, caller, status);
  }
}
