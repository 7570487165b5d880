/**
  The Task handlers of src/cloud/main.js (`createTask`, `myTasks`,
  `toggleTaskDone`, `deleteTask`, `tasksByStatus`, `setTaskStatus`) over a
  store that holds the Task class. Every write goes through `Gate`; every
  lookup is scoped to `owner == caller`. Each handler is one atomic step.
 */
module TaskStore {
  import opened TaskModel
  import opened Paging
  import opened TaskIndex

  /** What a direct update does to one attribute. */
  datatype Change = Keep | SetTo(v: Value) | Unset

  /** A direct update of a stored Task: an owner to write, if any, and one change per attribute. */
  datatype Patch = Patch(
    owner: Option<UserId>,
    title: Change,
    done: Change,
    status: Change,
    priority: Change,
    dueDate: Change)

  function Changed(f: Option<Value>, c: Change): Option<Value>
  {
    match c
    case Keep => f
    case SetTo(v) => Some(v)
    case Unset => None
  }

  /** The object a direct update hands to the gate. */
  function Apply(a: Attrs, p: Patch): Attrs
  {
    a.(
      owner := if p.owner.Some? then p.owner else a.owner,
      title := Changed(a.title, p.title),
      done := Changed(a.done, p.done),
      status := Changed(a.status, p.status),
      priority := Changed(a.priority, p.priority),
      dueDate := Changed(a.dueDate, p.dueDate))
  }

  /** The response of `createTask`. */
  datatype Created = Created(
    id: Id,
    title: Option<Value>,
    status: Option<Value>,
    priority: Option<Value>,
    dueDate: Option<Value>,
    createdAt: Stamp)

  /** One entry of the `myTasks` response. */
  datatype Summary = Summary(id: Id, title: Option<Value>, done: Option<Value>, createdAt: Stamp)

  /** One entry of the `tasksByStatus` page. */
  datatype Listing = Listing(
    id: Id,
    title: Option<Value>,
    status: Option<Value>,
    priority: Option<Value>,
    dueDate: Option<Value>,
    createdAt: Stamp)

  /** The response of `tasksByStatus`. */
  datatype StatusPage = StatusPage(items: seq<Listing>, total: nat, limit: int, skip: int, nextSkip: Option<nat>)

  datatype DoneAck = DoneAck(id: Id, done: Option<Value>)

  datatype StatusAck = StatusAck(id: Id, status: Option<Value>)

  datatype Deleted = Deleted(id: Id, deleted: bool)

  /** The `myTasks` projection of a stored Task. */
  function Summarize(id: Id, t: Task): Summary
  {
    Summary(id, t.attrs.title, t.attrs.done, t.createdAt)
  }

  /** The `tasksByStatus` projection of a stored Task. */
  function ListingOf(id: Id, t: Task): Listing
  {
    Listing(id, t.attrs.title, t.attrs.status, t.attrs.priority, t.attrs.dueDate, t.createdAt)
  }

  function IdsOf(items: seq<Summary>): seq<Id>
  {
    seq(|items|, k requires 0 <= k < |items| => items[k].id)
  }

  /**
    The `tasksByStatus` response for the ordered matches `found`:
    `total` counted before paging, one page projected, and `nextSkip`.
   */
  function Respond(found: seq<Id>, ts: map<Id, Task>, lim: int, sk: int): (p: StatusPage)
    requires 1 <= lim && 0 <= sk
    requires forall i :: 0 <= i < |found| ==> found[i] in ts
    ensures p.limit == lim && p.skip == sk && p.total == |found|
    ensures |p.items| == Min(lim, Max(|found| - sk, 0))
    ensures forall k :: 0 <= k < |p.items| ==> p.items[k] == ListingOf(found[sk + k], ts[found[sk + k]])
    ensures p.nextSkip.Some? <==> sk + |p.items| < |found|
    ensures p.nextSkip.Some? ==> p.nextSkip.value == sk + |p.items|
  {
    var window := Page(found, lim, sk);
    var items := seq(|window|, k requires 0 <= k < |window| => ListingOf(window[k], ts[window[k]]));
    StatusPage(items, |found|, lim, sk, NextSkip(sk, |items|, |found|))
  }

  /** `if (x) task.set(f, x)`: a falsy or absent parameter leaves the attribute unset. */
  function Given(v: Option<Value>): Option<Value>
  {
    if v.Some? && Truthy(v.value) then v else None
  }

  /** `typeof done === "boolean"`. */
  predicate IsBool(v: Option<Value>)
  {
    v.Some? && v.value.Bool?
  }

  /**
    `createTask` rejects a truthy `dueDate` that `new Date(dueDate)` turns
    into an invalid date; `parseDate` stands for that conversion, `None`
    for a NaN time value.
   */
  predicate DueUnparsable(dueDate: Option<Value>, parseDate: Value -> Option<int>)
  {
    Given(dueDate).Some? && parseDate(dueDate.value).None?
  }

  /** The `dueDate` attribute `createTask` sets. */
  function DueAttr(dueDate: Option<Value>, parseDate: Value -> Option<int>): Option<Value>
  {
    if Given(dueDate).Some? then Some(Date(parseDate(dueDate.value))) else None
  }

  /** `after` still records every owner `before` recorded, unchanged. */
  ghost predicate Extends(before: map<Id, UserId>, after: map<Id, UserId>)
  {
    before.Keys <= after.Keys && forall id :: id in before ==> after[id] == before[id]
  }

  class Store {
    /** The Task class, by object id. */
    var tasks: map<Id, Task>
    /** The collaborator's index of `tasks`, newest first by `createdAt`. */
    var order: seq<Id>
    /** The next object id the collaborator hands out. */
    var nextId: Id
    /** The owner every id was created with, including ids since deleted. */
    ghost var owners: map<Id, UserId>

    ghost predicate Valid()
      reads this
    {
      Indexes(order, tasks)
      && (forall id :: id in tasks ==> Stored(tasks[id].attrs))
      && (forall id :: id in tasks ==> id in owners && tasks[id].attrs.owner == Some(owners[id]))
      && (forall id :: id in owners ==> id < nextId)
    }

    constructor ()
      ensures Valid() && tasks == map[] && order == [] && owners == map[]
    {
      tasks := map[];
      order := [];
      nextId := 0;
      owners := map[];
    }

    /** `createTask`: validate the parameters, build the object, save it through the gate. */
    method CreateTask(
      caller: Option<UserId>,
      title: Option<Value>,
      priority: Option<Value>,
      status: Option<Value>,
      dueDate: Option<Value>,
      parseDate: Value -> Option<int>,
      now: Stamp)
      returns (r: Result<Created>)
      requires Valid()
      modifies this
      ensures Valid() && Extends(old(owners), owners)
      ensures caller.None? ==> r == Err(NotAuthorized)
      ensures caller.Some? && !NonEmptyString(title) ==> r == Err(TitleRequired)
      ensures caller.Some? && NonEmptyString(title) && DueUnparsable(dueDate, parseDate) ==> r == Err(DueDateNotIso)
      ensures caller.Some? && NonEmptyString(title) && !DueUnparsable(dueDate, parseDate) ==>
        (r == Err(InvalidPriority) <==> !Allowed(ALLOWED_PRIORITY, Given(priority)))
        && (r == Err(InvalidStatus) <==>
              Allowed(ALLOWED_PRIORITY, Given(priority)) && !Allowed(ALLOWED_STATUS, Given(status)))
        && (r.Ok? <==> Allowed(ALLOWED_PRIORITY, Given(priority)) && Allowed(ALLOWED_STATUS, Given(status)))
      ensures r.Err? ==> tasks == old(tasks) && order == old(order) && nextId == old(nextId) && owners == old(owners)
      ensures r.Ok? ==>
        caller.Some? && NonEmptyString(title) && !DueUnparsable(dueDate, parseDate)
        && r.value.id !in old(tasks) && r.value.id in tasks
        && tasks == old(tasks)[r.value.id := tasks[r.value.id]]
        && tasks[r.value.id].createdAt == now
        && tasks[r.value.id].attrs == Attrs(
             caller, caller, title, Some(Bool(false)),
             OrDefault(Given(status), "todo"), OrDefault(Given(priority), "med"),
             DueAttr(dueDate, parseDate))
        && order == Insert(old(order), old(tasks), r.value.id, now)
        && nextId == old(nextId) + 1
        && r.value == Created(
             r.value.id, title, tasks[r.value.id].attrs.status, tasks[r.value.id].attrs.priority,
             tasks[r.value.id].attrs.dueDate, now)
    {
      if caller.None? {
        return Err(NotAuthorized);
      }
      if !NonEmptyString(title) {
        return Err(TitleRequired);
      }
      if DueUnparsable(dueDate, parseDate) {
        return Err(DueDateNotIso);
      }
      var user := caller.value;
      var draft := Attrs(
        Some(user), Some(user), title, Some(Bool(false)),
        Given(status), Given(priority), DueAttr(dueDate, parseDate));
      var g := Gate(caller, Draft(false, draft, true));
      if g.Err? {
        return Err(g.error);
      }
      var id := nextId;
      var t := Task(g.value, now);
      InsertIndexes(order, tasks, id, t);
      order := Insert(order, tasks, id, now);
      tasks := tasks[id := t];
      nextId := nextId + 1;
      owners := owners[id := user];
      r := Ok(Created(id, t.attrs.title, t.attrs.status, t.attrs.priority, t.attrs.dueDate, now));
    }

    /** `myTasks`: the caller's Tasks, newest first. */
    method MyTasks(caller: Option<UserId>) returns (r: Result<seq<Summary>>)
      requires Valid()
      ensures caller.None? ==> r == Err(NotAuthorized)
      ensures caller.Some? ==> r.Ok?
      ensures r.Ok? ==>
        caller.Some?
        && (forall id :: id in IdsOf(r.value) <==> Owns(tasks, caller.value, id))
        && NewestFirst(IdsOf(r.value), tasks)
        && (forall k :: 0 <= k < |r.value| ==>
              r.value[k].id in tasks && r.value[k] == Summarize(r.value[k].id, tasks[r.value[k].id]))
    {
      if caller.None? {
        return Err(NotAuthorized);
      }
      var ts := tasks;
      var found := Select(order, ts, caller.value, None);
      var items := seq(|found|, k requires 0 <= k < |found| => Summarize(found[k], ts[found[k]]));
      assert IdsOf(items) == found;
      OrderedIsNewestFirst(found, ts);
      r := Ok(items);
    }

    /** `tasksByStatus`: one page of the caller's Tasks with the given status, newest first. */
    method TasksByStatus(caller: Option<UserId>, status: Option<Value>, limit: Option<NumArg>, skip: Option<NumArg>)
      returns (r: Result<StatusPage>)
      requires Valid()
      ensures caller.None? ==> r == Err(NotAuthorized)
      ensures caller.Some? && !NonEmptyString(status) ==> r == Err(StatusRequired)
      ensures caller.Some? && NonEmptyString(status) ==> r.Ok?
      ensures r.Ok? ==>
        caller.Some? && NonEmptyString(status)
        && r.value == Respond(
             Select(order, tasks, caller.value, Some(status.value.s)), tasks, ClampLimit(limit), ClampSkip(skip))
        && r.value.total == |MatchingIds(tasks, caller.value, Some(status.value.s))|
    {
      if caller.None? {
        return Err(NotAuthorized);
      }
      if !NonEmptyString(status) {
        return Err(StatusRequired);
      }
      var found := Select(order, tasks, caller.value, Some(status.value.s));
      SelectCount(order, tasks, caller.value, Some(status.value.s));
      r := Ok(Respond(found, tasks, ClampLimit(limit), ClampSkip(skip)));
    }

    /** `toggleTaskDone`: set `done` on one of the caller's Tasks. */
    method ToggleTaskDone(caller: Option<UserId>, taskId: Option<Id>, done: Option<Value>) returns (r: Result<DoneAck>)
      requires Valid()
      modifies this
      ensures Valid() && order == old(order) && nextId == old(nextId) && owners == old(owners)
      ensures caller.None? ==> r == Err(NotAuthorized)
      ensures caller.Some? && taskId.None? ==> r == Err(TaskIdRequired)
      ensures caller.Some? && taskId.Some? && !IsBool(done) ==> r == Err(DoneNotBoolean)
      ensures caller.Some? && taskId.Some? && IsBool(done) && !Owns(old(tasks), caller.value, taskId.value) ==>
        r == Err(NotFound)
      ensures r.Ok? <==> caller.Some? && taskId.Some? && IsBool(done) && Owns(old(tasks), caller.value, taskId.value)
      ensures r.Err? ==> tasks == old(tasks)
      ensures r.Ok? ==>
        taskId.Some? && taskId.value in old(tasks)
        && tasks == old(tasks)[taskId.value := old(tasks)[taskId.value].(attrs := old(tasks)[taskId.value].attrs.(done := done))]
        && r.value == DoneAck(taskId.value, done)
    {
      if caller.None? {
        return Err(NotAuthorized);
      }
      if taskId.None? {
        return Err(TaskIdRequired);
      }
      if !IsBool(done) {
        return Err(DoneNotBoolean);
      }
      var id := taskId.value;
      if !Owns(tasks, caller.value, id) {
        return Err(NotFound);
      }
      var t := tasks[id];
      var g := Gate(caller, Draft(true, t.attrs.(done := done), false));
      assert g == Ok(t.attrs.(done := done));
      UpdateIndexes(order, tasks, id, g.value);
      tasks := tasks[id := Task(g.value, t.createdAt)];
      r := Ok(DoneAck(id, g.value.done));
    }

    /** `setTaskStatus`: set `status`, and `done` to whether it is "done", on one of the caller's Tasks. */
    method SetTaskStatus(caller: Option<UserId>, taskId: Option<Id>, status: Option<Value>) returns (r: Result<StatusAck>)
      requires Valid()
      modifies this
      ensures Valid() && order == old(order) && nextId == old(nextId) && owners == old(owners)
      ensures caller.None? ==> r == Err(NotAuthorized)
      ensures caller.Some? && taskId.None? ==> r == Err(TaskIdRequired)
      ensures caller.Some? && taskId.Some? && Given(status).None? ==> r == Err(StatusRequired)
      ensures caller.Some? && taskId.Some? && Given(status).Some? && !Owns(old(tasks), caller.value, taskId.value) ==>
        r == Err(NotFound)
      ensures (caller.Some? && taskId.Some? && Given(status).Some? && Owns(old(tasks), caller.value, taskId.value)
               && !Allowed(ALLOWED_STATUS, status)) ==> r == Err(InvalidStatus)
      ensures r.Ok? <==>
        caller.Some? && taskId.Some? && Given(status).Some? && Owns(old(tasks), caller.value, taskId.value)
        && Allowed(ALLOWED_STATUS, status)
      ensures r.Err? ==> tasks == old(tasks)
      ensures r.Ok? ==>
        taskId.Some? && taskId.value in old(tasks) && status.Some?
        && tasks == old(tasks)[taskId.value := old(tasks)[taskId.value].(attrs :=
             old(tasks)[taskId.value].attrs.(status := status, done := Some(Bool(status.value == Str("done")))))]
        && r.value == StatusAck(taskId.value, status)
    {
      if caller.None? {
        return Err(NotAuthorized);
      }
      if taskId.None? {
        return Err(TaskIdRequired);
      }
      if Given(status).None? {
        return Err(StatusRequired);
      }
      var id := taskId.value;
      if !Owns(tasks, caller.value, id) {
        return Err(NotFound);
      }
      var t := tasks[id];
      var edited := t.attrs.(status := status, done := Some(Bool(status.value == Str("done"))));
      var g := Gate(caller, Draft(true, edited, false));
      if g.Err? {
        return Err(g.error);
      }
      UpdateIndexes(order, tasks, id, g.value);
      tasks := tasks[id := Task(g.value, t.createdAt)];
      r := Ok(StatusAck(id, g.value.status));
    }

    /** `deleteTask`: destroy one of the caller's Tasks. */
    method DeleteTask(caller: Option<UserId>, taskId: Option<Id>) returns (r: Result<Deleted>)
      requires Valid()
      modifies this
      ensures Valid() && nextId == old(nextId) && owners == old(owners)
      ensures caller.None? ==> r == Err(NotAuthorized)
      ensures caller.Some? && taskId.None? ==> r == Err(TaskIdRequired)
      ensures caller.Some? && taskId.Some? && !Owns(old(tasks), caller.value, taskId.value) ==> r == Err(NotFound)
      ensures r.Ok? <==> caller.Some? && taskId.Some? && Owns(old(tasks), caller.value, taskId.value)
      ensures r.Err? ==> tasks == old(tasks) && order == old(order)
      ensures r.Ok? ==>
        taskId.Some?
        && tasks == old(tasks) - {taskId.value}
        && order == Remove(old(order), taskId.value)
        && r.value == Deleted(taskId.value, true)
    {
      if caller.None? {
        return Err(NotAuthorized);
      }
      if taskId.None? {
        return Err(TaskIdRequired);
      }
      var id := taskId.value;
      if !Owns(tasks, caller.value, id) {
        return Err(NotFound);
      }
      RemoveIndexes(order, tasks, id);
      tasks := tasks - {id};
      order := Remove(order, id);
      r := Ok(Deleted(id, true));
    }

    /**
      A direct update of a stored Task by a client, which the framework also
      routes through the gate: the owner-scoped lookup, then `Gate` on the
      patched object.
     */
    method UpdateTask(caller: Option<UserId>, id: Id, p: Patch) returns (r: Result<Attrs>)
      requires Valid()
      modifies this
      ensures Valid() && order == old(order) && nextId == old(nextId) && owners == old(owners)
      ensures caller.None? ==> r == Err(NotAuthorized)
      ensures caller.Some? && !Owns(old(tasks), caller.value, id) ==> r == Err(NotFound)
      ensures caller.Some? && Owns(old(tasks), caller.value, id) && p.owner.Some? ==> r == Err(CannotChangeOwner)
      ensures caller.Some? && Owns(old(tasks), caller.value, id) && p.owner.None? ==>
        (r.Ok? <==> AttrsOk(Apply(old(tasks)[id].attrs, p)))
      // the gate's field errors, first failing check first
      ensures (caller.Some? && Owns(old(tasks), caller.value, id) && p.owner.None?
               && !Allowed(ALLOWED_PRIORITY, Apply(old(tasks)[id].attrs, p).priority))
        ==> r == Err(InvalidPriority)
      ensures (caller.Some? && Owns(old(tasks), caller.value, id) && p.owner.None?
               && Allowed(ALLOWED_PRIORITY, Apply(old(tasks)[id].attrs, p).priority)
               && !Allowed(ALLOWED_STATUS, Apply(old(tasks)[id].attrs, p).status))
        ==> r == Err(InvalidStatus)
      ensures (caller.Some? && Owns(old(tasks), caller.value, id) && p.owner.None?
               && Allowed(ALLOWED_PRIORITY, Apply(old(tasks)[id].attrs, p).priority)
               && Allowed(ALLOWED_STATUS, Apply(old(tasks)[id].attrs, p).status)
               && !IsDate(Apply(old(tasks)[id].attrs, p).dueDate))
        ==> r == Err(DueDateNotDate)
      ensures r.Err? ==> tasks == old(tasks)
      ensures r.Ok? ==>
        id in old(tasks) && p.owner.None?
        && tasks == old(tasks)[id := Task(Apply(old(tasks)[id].attrs, p), old(tasks)[id].createdAt)]
        && tasks[id].attrs.owner == old(tasks)[id].attrs.owner
        && r.value == tasks[id].attrs
    {
      if caller.None? {
        return Err(NotAuthorized);
      }
      if !Owns(tasks, caller.value, id) {
        return Err(NotFound);
      }
      var t := tasks[id];
      var g := Gate(caller, Draft(true, Apply(t.attrs, p), p.owner.Some?));
      if g.Err? {
        return Err(g.error);
      }
      UpdateIndexes(order, tasks, id, g.value);
      tasks := tasks[id := Task(g.value, t.createdAt)];
      r := Ok(g.value);
    }
  }

  /**
    A caller creates a Task with only a title and a priority, finds it in
    its own listing, and another caller's attempt to toggle it fails as for
    an unknown id and changes nothing.
   */
  method OwnershipScenario(parseDate: Value -> Option<int>)
  {
    var store := new Store();
    var u, v := 1, 2;
    var c := store.CreateTask(Some(u), Some(Str("Write spec")), Some(Str("high")), None, None, parseDate, 100);
    assert "high" in ALLOWED_PRIORITY;
    assert c.Ok?;
    assert c.value.status == Some(Str("todo")) && c.value.priority == Some(Str("high"));
    var id := c.value.id;
    var mine := store.MyTasks(Some(u));
    assert id in IdsOf(mine.value);
    var before := store.tasks;
    var t := store.ToggleTaskDone(Some(v), Some(id), Some(Bool(true)));
    assert t == Err(NotFound) && store.tasks == before;
  }
}
