/**
  The Task record and the `beforeSave("Task")` validation and authorization
  gate of src/cloud/main.js.

  Attribute values are modelled as the JSON-ish values a request can carry;
  an attribute that is absent (or null, which the framework's `has` treats
  the same way) is `None`.
 */
module TaskModel {

  /** Identity of an authenticated caller (a `_User` pointer). */
  type UserId = nat

  /** Opaque object id assigned by the persistence collaborator. */
  type Id = nat

  /** The opaque, ordered `createdAt` value assigned by the persistence collaborator. */
  type Stamp = int

  datatype Option<+T> = None | Some(value: T)

  /** A parameter or attribute value. A `Date` carries its time value, `None` for an invalid date (NaN). */
  datatype Value =
    | Str(s: string)
    | Num(n: int)
    | Bool(b: bool)
    | Date(time: Option<int>)
    | Other

  /** JavaScript truthiness of a present value. */
  predicate Truthy(v: Value)
  {
    match v
    case Str(s) => s != ""
    case Num(n) => n != 0
    case Bool(b) => b
    case Date(_) => true
    case Other => true
  }

  /** `!x || typeof x !== "string"` is false exactly for a present, non-empty string. */
  predicate NonEmptyString(v: Option<Value>)
  {
    v.Some? && v.value.Str? && v.value.s != ""
  }

  /** Every error the handlers and the gate raise. */
  datatype Error =
    | NotAuthorized
    | CannotChangeOwner
    | InvalidPriority
    | InvalidStatus
    | DueDateNotDate
    | TitleRequired
    | DueDateNotIso
    | TaskIdRequired
    | DoneNotBoolean
    | StatusRequired
    | NotFound

  /** The message each error carries; `NotFound` is the framework's own for a failed `get`. */
  function Message(e: Error): string
  {
    match e
    case NotAuthorized => "Not authorized"
    case CannotChangeOwner => "Cannot change owner"
    case InvalidPriority => "Invalid priority (low|med|high)"
    case InvalidStatus => "Invalid status (todo|in_progress|done|canceled)"
    case DueDateNotDate => "dueDate must be a Date"
    case TitleRequired => "title is required"
    case DueDateNotIso => "dueDate must be ISO date string"
    case TaskIdRequired => "taskId is required"
    case DoneNotBoolean => "done must be boolean"
    case StatusRequired => "status is required"
    case NotFound => "Object not found."
  }

  /** Each error kind has its own message, so a client can tell any two apart. */
  lemma MessagesDistinct(e1: Error, e2: Error)
    ensures Message(e1) == Message(e2) <==> e1 == e2
  {
  }

  datatype Result<+T> = Ok(value: T) | Err(error: Error)

  /**
    The attributes of a Task. `acl == Some(u)` is the owner-only access rule
    (read and write for `u`, public read and write denied); `None` is no rule.
   */
  datatype Attrs = Attrs(
    owner: Option<UserId>,
    acl: Option<UserId>,
    title: Option<Value>,
    done: Option<Value>,
    status: Option<Value>,
    priority: Option<Value>,
    dueDate: Option<Value>)

  /** A stored Task: its attributes and the `createdAt` the store gave it. */
  datatype Task = Task(attrs: Attrs, createdAt: Stamp)

  /**
    The object a save hands to the gate: whether it already existed, its
    attributes as they would be written, and whether `owner` is among the
    attributes this save sets (`task.dirty("owner")`).
   */
  datatype Draft = Draft(existed: bool, attrs: Attrs, ownerDirty: bool)

  const ALLOWED_PRIORITY: seq<string> := ["low", "med", "high"]
  const ALLOWED_STATUS: seq<string> := ["todo", "in_progress", "done", "canceled"]

  /** An attribute that is absent or one of the allowed strings (`ALLOWED.includes(x)`). */
  predicate Allowed(allowed: seq<string>, f: Option<Value>)
  {
    f.None? || (f.value.Str? && f.value.s in allowed)
  }

  /** An attribute that is absent or a Date (`x instanceof Date`); a NaN date passes. */
  predicate IsDate(f: Option<Value>)
  {
    f.None? || f.value.Date?
  }

  /** The three field checks of the gate. */
  predicate AttrsOk(a: Attrs)
  {
    Allowed(ALLOWED_PRIORITY, a.priority) && Allowed(ALLOWED_STATUS, a.status) && IsDate(a.dueDate)
  }

  /** What every stored Task satisfies: an owner, the owner-only rule, and valid fields. */
  predicate Stored(a: Attrs)
  {
    a.owner.Some? && a.acl == a.owner && AttrsOk(a)
  }

  /** `if (!task.has(f)) task.set(f, dflt)`. */
  function OrDefault(f: Option<Value>, dflt: string): Option<Value>
  {
    if f.Some? then f else Some(Str(dflt))
  }

  /** The in-place changes the gate makes to a new object: owner, defaults, access rule. */
  function Prepare(user: UserId, d: Draft): Attrs
  {
    if d.existed then d.attrs
    else d.attrs.(
      owner := Some(user),
      acl := Some(user),
      status := OrDefault(d.attrs.status, "todo"),
      priority := OrDefault(d.attrs.priority, "med"))
  }

  /**
    The `beforeSave("Task")` hook: the attributes to write, or the error that
    aborts the save. The checks run in a fixed order and the first failing
    one decides the error.
   */
  function Gate(user: Option<UserId>, d: Draft): (r: Result<Attrs>)
    // no caller: rejected before anything else is looked at
    ensures user.None? ==> r == Err(NotAuthorized)
    // an owner write on an existing object is rejected before any field check
    ensures user.Some? && d.existed && d.ownerDirty ==> r == Err(CannotChangeOwner)
    // and those two errors arise in no other case
    ensures r == Err(NotAuthorized) ==> user.None?
    ensures r == Err(CannotChangeOwner) ==> user.Some? && d.existed && d.ownerDirty
    // what a success writes
    ensures r.Ok? ==> user.Some? && AttrsOk(r.value)
    ensures r.Ok? && !d.existed ==>
      r.value == d.attrs.(
        owner := user,
        acl := user,
        status := OrDefault(d.attrs.status, "todo"),
        priority := OrDefault(d.attrs.priority, "med"))
    ensures r.Ok? && d.existed ==> !d.ownerDirty && r.value == d.attrs
    // a failure after the owner check is always a genuine field violation
    ensures r.Err? && user.Some? && !(d.existed && d.ownerDirty) ==> !AttrsOk(Prepare(user.value, d))
    // the field errors, in order: each one implies that the earlier checks passed
    ensures r == Err(InvalidPriority) ==>
      !Allowed(ALLOWED_PRIORITY, Prepare(user.value, d).priority)
    ensures r == Err(InvalidStatus) ==>
      Allowed(ALLOWED_PRIORITY, Prepare(user.value, d).priority)
      && !Allowed(ALLOWED_STATUS, Prepare(user.value, d).status)
    ensures r == Err(DueDateNotDate) ==>
      Allowed(ALLOWED_PRIORITY, Prepare(user.value, d).priority)
      && Allowed(ALLOWED_STATUS, Prepare(user.value, d).status)
      && !IsDate(Prepare(user.value, d).dueDate)
    // and the first failing field check decides the error
    ensures (user.Some? && !(d.existed && d.ownerDirty)
             && !Allowed(ALLOWED_PRIORITY, Prepare(user.value, d).priority))
      ==> r == Err(InvalidPriority)
    ensures (user.Some? && !(d.existed && d.ownerDirty)
             && Allowed(ALLOWED_PRIORITY, Prepare(user.value, d).priority)
             && !Allowed(ALLOWED_STATUS, Prepare(user.value, d).status))
      ==> r == Err(InvalidStatus)
    ensures (user.Some? && !(d.existed && d.ownerDirty)
             && Allowed(ALLOWED_PRIORITY, Prepare(user.value, d).priority)
             && Allowed(ALLOWED_STATUS, Prepare(user.value, d).status)
             && !IsDate(Prepare(user.value, d).dueDate))
      ==> r == Err(DueDateNotDate)
    ensures r.Err? ==>
      r.error in {NotAuthorized, CannotChangeOwner, InvalidPriority, InvalidStatus, DueDateNotDate}
  {
    if user.None? then Err(NotAuthorized)
    else
      var a := Prepare(user.value, d);
      if d.existed && d.ownerDirty then Err(CannotChangeOwner)
      else if !Allowed(ALLOWED_PRIORITY, a.priority) then Err(InvalidPriority)
      else if !Allowed(ALLOWED_STATUS, a.status) then Err(InvalidStatus)
      else if !IsDate(a.dueDate) then Err(DueDateNotDate)
      else Ok(a)
  }

  /** A record the gate let through is accepted unchanged when it is saved again without edits. */
  lemma GateStable(user: UserId, d: Draft)
    requires Gate(Some(user), d).Ok?
    ensures Gate(Some(user), Draft(true, Gate(Some(user), d).value, false)) == Gate(Some(user), d)
  {
  }
}
