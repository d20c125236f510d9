/** Task actions (src/lib/actions/tasks.ts): the status machine OPEN →
    OPGEPAKT → AFGEROND driven by claim and complete, which any signed-in user
    may do and which tell the admins; and the admin-only creation and
    deletion of tasks and task groups.

    `new Date(s)` is the oracle `parseDate`; store-generated ids are the
    parameter `freshId` (an id in use fails like any store error). */
module TaskActions {
  import opened Common
  import opened Store
  import opened Auth
  import opened Notifications
  import opened TaskValidation

  const TaskNotFound: Reason := Message("Taak niet gevonden")
  const AlreadyClaimed: Reason := Message("Taak is al opgepakt")
  const AlreadyDone: Reason := Message("Taak is al afgerond")
  const TitleRequired: Reason := Message("Titel is verplicht")

  /** Claiming: only an OPEN task; it becomes OPGEPAKT with the caller as claimer. */
  function Claim(t: Task, userId: UserId): Try<Task> {
    if t.status != Open then Threw(AlreadyClaimed)
    else Ok(t.(status := Opgepakt, geclaimdDoor := Some(userId)))
  }

  /** Completing: anything but an AFGEROND task; it becomes AFGEROND at `now`,
      keeping its claimer or else recording the caller. */
  function Complete(t: Task, userId: UserId, now: int): Try<Task> {
    if t.status == Afgerond then Threw(AlreadyDone)
    else Ok(t.(status := Afgerond, geclaimdDoor := Some(t.geclaimdDoor.GetOr(userId)), afgerondOp := Some(now)))
  }

  /** The order of the statuses. */
  function Rank(s: TaskStatus): nat {
    match s
    case Open => 0
    case Opgepakt => 1
    case Afgerond => 2
  }

  /** Claim succeeds exactly on an OPEN task, complete exactly on a task that is
      not AFGEROND; each success moves the status strictly forward and touches
      no field but status, claimer and completion time. */
  lemma TransitionsAdvance(t: Task, userId: UserId, now: int)
    ensures Claim(t, userId).Ok? <==> t.status == Open
    ensures Claim(t, userId).Ok? ==>
      var c := Claim(t, userId).value;
      Rank(t.status) < Rank(c.status) && c.status == Opgepakt && c.geclaimdDoor == Some(userId)
      && c.(status := t.status, geclaimdDoor := t.geclaimdDoor) == t
    ensures Complete(t, userId, now).Ok? <==> t.status != Afgerond
    ensures Complete(t, userId, now).Ok? ==>
      var c := Complete(t, userId, now).value;
      Rank(t.status) < Rank(c.status) && c.status == Afgerond && c.afgerondOp == Some(now)
      && (t.geclaimdDoor.Some? ==> c.geclaimdDoor == t.geclaimdDoor)
      && (t.geclaimdDoor.None? ==> c.geclaimdDoor == Some(userId))
      && c.(status := t.status, geclaimdDoor := t.geclaimdDoor, afgerondOp := t.afgerondOp) == t
  {
  }

  /** A claim or completion request on one task, by one user. */
  datatype TaskOp = ClaimOp(user: UserId) | CompleteOp(user: UserId, at: int)

  /** The task after one request; a rejected request leaves it as it was. */
  function Apply(t: Task, op: TaskOp): Task {
    var r := match op
      case ClaimOp(u) => Claim(t, u)
      case CompleteOp(u, at) => Complete(t, u, at);
    if r.Ok? then r.value else t
  }

  /** The task after a series of requests, in order. */
  function ApplyAll(t: Task, ops: seq<TaskOp>): Task {
    if ops == [] then t else Apply(ApplyAll(t, ops[..|ops| - 1]), ops[|ops| - 1])
  }

  /** Whatever requests arrive, the status never moves backwards, and an
      AFGEROND task is never changed again. */
  lemma {:induction false} StatusMonotone(t: Task, ops: seq<TaskOp>)
    ensures Rank(t.status) <= Rank(ApplyAll(t, ops).status)
    ensures t.status == Afgerond ==> ApplyAll(t, ops) == t
  {
    if ops != [] {
      var prev := ApplyAll(t, ops[..|ops| - 1]);
      StatusMonotone(t, ops[..|ops| - 1]);
      match ops[|ops| - 1]
      case ClaimOp(u) => TransitionsAdvance(prev, u, 0);
      case CompleteOp(u, at) => TransitionsAdvance(prev, u, at);
    }
  }

  /** How many requests of the series changed the task. */
  function Changes(t: Task, ops: seq<TaskOp>): nat {
    if ops == [] then 0
    else
      var prev := ApplyAll(t, ops[..|ops| - 1]);
      Changes(t, ops[..|ops| - 1]) + (if Apply(prev, ops[|ops| - 1]) != prev then 1 else 0)
  }

  /** Every change strictly raises the status, so a task changes at most twice
      in its life: it is claimed at most once and completed at most once. */
  lemma {:induction false} AtMostTwoChanges(t: Task, ops: seq<TaskOp>)
    ensures Changes(t, ops) <= Rank(ApplyAll(t, ops).status) - Rank(t.status) <= 2 - Rank(t.status)
  {
    if ops != [] {
      var init := ops[..|ops| - 1];
      var prev := ApplyAll(t, init);
      AtMostTwoChanges(t, init);
      StatusMonotone(t, init);
      match ops[|ops| - 1]
      case ClaimOp(u) => TransitionsAdvance(prev, u, 0);
      case CompleteOp(u, at) => TransitionsAdvance(prev, u, at);
    }
  }

  function ClaimedDraft(taskId: Id, titel: string, userId: UserId): Draft {
    Draft(TaakGeclaimd, "Heeft taak \"" + titel + "\" opgepakt", TaskRef, taskId, userId)
  }

  function CompletedDraft(taskId: Id, titel: string, userId: UserId): Draft {
    Draft(TaakAfgerond, "Heeft taak \"" + titel + "\" afgerond", TaskRef, taskId, userId)
  }

  /** `claimTask`. */
  method ClaimTask(db: Db, session: Session, taskId: Id, listing: Option<seq<IdentityUser>>) returns (r: ActionResult)
    modifies db`tasks, db`notifications, db`nextNotificationId
    ensures !SignedIn(session) ==> r == Failure(NotSignedIn)
    ensures SignedIn(session) && taskId !in old(db.tasks) ==> r == Failure(TaskNotFound)
    ensures SignedIn(session) && taskId in old(db.tasks) && old(db.tasks)[taskId].status != Open ==> r == Failure(AlreadyClaimed)
    ensures r.Failure? ==>
      db.tasks == old(db.tasks) && db.notifications == old(db.notifications) && db.nextNotificationId == old(db.nextNotificationId)
    ensures r.Success? <==> SignedIn(session) && taskId in old(db.tasks) && old(db.tasks)[taskId].status == Open
    ensures r.Success? ==>
      var uid, t := session.userId.value, old(db.tasks)[taskId];
      && db.tasks == old(db.tasks)[taskId := Claim(t, uid).value]
      && db.notifications == old(db.notifications)
           + NewRows(AdminRecipients(listing, uid), ClaimedDraft(taskId, t.titel, uid), old(db.nextNotificationId))
      && db.nextNotificationId == old(db.nextNotificationId) + |AdminRecipients(listing, uid)|
  {
    var uid := GetCurrentUserId(session);
    if uid.Threw? {
      return Failure(uid.reason);
    }
    var userId := uid.value;
    if taskId !in db.tasks {
      return Failure(TaskNotFound);
    }
    var task := db.tasks[taskId];
    if task.status != Open {
      return Failure(AlreadyClaimed);
    }
    db.tasks := db.tasks[taskId := task.(status := Opgepakt, geclaimdDoor := Some(userId))];
    NotifyAdmins(db, listing, ClaimedDraft(taskId, task.titel, userId));
    r := Success;
  }

  /** `completeTask`. */
  method CompleteTask(db: Db, session: Session, taskId: Id, now: int, listing: Option<seq<IdentityUser>>)
    returns (r: ActionResult)
    modifies db`tasks, db`notifications, db`nextNotificationId
    ensures !SignedIn(session) ==> r == Failure(NotSignedIn)
    ensures SignedIn(session) && taskId !in old(db.tasks) ==> r == Failure(TaskNotFound)
    ensures SignedIn(session) && taskId in old(db.tasks) && old(db.tasks)[taskId].status == Afgerond ==> r == Failure(AlreadyDone)
    ensures r.Failure? ==>
      db.tasks == old(db.tasks) && db.notifications == old(db.notifications) && db.nextNotificationId == old(db.nextNotificationId)
    ensures r.Success? <==> SignedIn(session) && taskId in old(db.tasks) && old(db.tasks)[taskId].status != Afgerond
    ensures r.Success? ==>
      var uid, t := session.userId.value, old(db.tasks)[taskId];
      && db.tasks == old(db.tasks)[taskId := Complete(t, uid, now).value]
      && db.notifications == old(db.notifications)
           + NewRows(AdminRecipients(listing, uid), CompletedDraft(taskId, t.titel, uid), old(db.nextNotificationId))
      && db.nextNotificationId == old(db.nextNotificationId) + |AdminRecipients(listing, uid)|
  {
    var uid := GetCurrentUserId(session);
    if uid.Threw? {
      return Failure(uid.reason);
    }
    var userId := uid.value;
    if taskId !in db.tasks {
      return Failure(TaskNotFound);
    }
    var task := db.tasks[taskId];
    if task.status == Afgerond {
      return Failure(AlreadyDone);
    }
    var claimer := if task.geclaimdDoor.Some? then task.geclaimdDoor.value else userId;
    db.tasks := db.tasks[taskId := task.(status := Afgerond, geclaimdDoor := Some(claimer), afgerondOp := Some(now))];
    NotifyAdmins(db, listing, CompletedDraft(taskId, task.titel, userId));
    r := Success;
  }

  /** The raw form `createTask` parses: empty optional fields become absent first. */
  function TaskRaw(f: TaskForm): TaskForm {
    TaskForm(f.titel, NullIfEmpty(f.beschrijving), NullIfEmpty(f.deadline), NullIfEmpty(f.taskGroupId), NullIfEmpty(f.toegewezenAan))
  }

  /** The new task row: OPEN, unclaimed, not completed; None when the deadline is not a date. */
  function NewTask(f: TaskForm, parseDate: string -> Option<int>, creator: UserId): (r: Option<Task>)
    requires ValidTask(f)
    ensures r.Some? <==> !Truthy(f.deadline) || parseDate(f.deadline.value).Some?
    ensures r.Some? ==>
      && r.value.status == Open && r.value.geclaimdDoor.None? && r.value.afgerondOp.None?
      && r.value.titel == f.titel.value && r.value.aangemaaktDoor == creator
      && (r.value.deadline.Some? <==> Truthy(f.deadline))
      && (r.value.taskGroupId.Some? <==> Truthy(f.taskGroupId))
      && (r.value.toegewezenAan.Some? <==> Truthy(f.toegewezenAan))
  {
    var deadline := if Truthy(f.deadline) then parseDate(f.deadline.value) else None;
    if Truthy(f.deadline) && deadline.None? then None
    else Some(Task(f.titel.value, NullIfEmpty(f.beschrijving), deadline, NullIfEmpty(f.taskGroupId),
                   NullIfEmpty(f.toegewezenAan), creator, Open, None, None))
  }

  function NewTaskDraft(taskId: Id, titel: string, creator: UserId): Draft {
    Draft(NieuweTaak, "Nieuwe taak: \"" + titel + "\"", TaskRef, taskId, creator)
  }

  /** Whether the store accepts the new task: a fresh id and, when a group is
      named, an existing group (foreign key). */
  predicate Insertable(db_tasks: map<Id, Task>, groups: map<Id, TaskGroup>, freshId: Id, t: Task) {
    freshId !in db_tasks && (t.taskGroupId.Some? ==> t.taskGroupId.value in groups)
  }

  /** `createTask`: admins only; the members (never the creator) are told. */
  method CreateTask(db: Db, session: Session, form: TaskForm, parseDate: string -> Option<int>, freshId: Id,
                    listing: Option<seq<IdentityUser>>)
    returns (r: ActionResult)
    modifies db`tasks, db`notifications, db`nextNotificationId
    ensures RequireAdmin(session).Threw? ==> r == Failure(RequireAdmin(session).reason)
    ensures RequireAdmin(session).Ok? && !ValidTask(TaskRaw(form)) ==> r == Failure(Invalid)
    ensures r.Failure? ==>
      db.tasks == old(db.tasks) && db.notifications == old(db.notifications) && db.nextNotificationId == old(db.nextNotificationId)
    ensures r.Success? <==>
      && RequireAdmin(session).Ok? && ValidTask(TaskRaw(form))
      && NewTask(TaskRaw(form), parseDate, RequireAdmin(session).value).Some?
      && Insertable(old(db.tasks), db.taskGroups, freshId, NewTask(TaskRaw(form), parseDate, RequireAdmin(session).value).value)
    ensures r.Success? ==>
      var uid := RequireAdmin(session).value;
      && db.tasks == old(db.tasks)[freshId := NewTask(TaskRaw(form), parseDate, uid).value]
      && db.notifications == old(db.notifications)
           + NewRows(MemberRecipients(listing, uid), NewTaskDraft(freshId, form.titel.value, uid), old(db.nextNotificationId))
      && db.nextNotificationId == old(db.nextNotificationId) + |MemberRecipients(listing, uid)|
  {
    var admin := RequireAdmin(session);
    if admin.Threw? {
      return Failure(admin.reason);
    }
    var userId := admin.value;
    var raw := TaskRaw(form);
    if !ValidTask(raw) {
      return Failure(Invalid);
    }
    var task := NewTask(raw, parseDate, userId);
    if task.None? || !Insertable(db.tasks, db.taskGroups, freshId, task.value) {
      return Failure(StoreError);
    }
    db.tasks := db.tasks[freshId := task.value];
    NotifyMembers(db, listing, NewTaskDraft(freshId, raw.titel.value, userId));
    r := Success;
  }

  /** `deleteTask`: admins only. */
  method DeleteTask(db: Db, session: Session, taskId: Id) returns (r: ActionResult)
    modifies db`tasks
    ensures RequireAdmin(session).Threw? ==> r == Failure(RequireAdmin(session).reason)
    ensures r.Success? <==> RequireAdmin(session).Ok? && taskId in old(db.tasks)
    ensures db.tasks == if r.Success? then old(db.tasks) - {taskId} else old(db.tasks)
  {
    var admin := RequireAdmin(session);
    if admin.Threw? {
      return Failure(admin.reason);
    }
    if taskId !in db.tasks {
      return Failure(StoreError);
    }
    db.tasks := db.tasks - {taskId};
    r := Success;
  }

  /** The title `createTaskGroup` stores: the trimmed field, None when that is
      empty or the field is absent. No schema bound applies here. */
  function GroupTitle(titel: Option<string>): (r: Option<string>)
    ensures r.None? <==> titel.None? || IsBlank(titel.value)
    ensures r.Some? ==> r.value == Trim(titel.value) && r.value != ""
  {
    if titel.None? then None
    else
      TrimEmptyIffBlank(titel.value);
      if Trim(titel.value) == "" then None else Some(Trim(titel.value))
  }

  /** `createTaskGroup`: admins only; a blank title is refused with "Titel is verplicht". */
  method CreateTaskGroup(db: Db, session: Session, titel: Option<string>, freshId: Id) returns (r: ActionResult)
    modifies db`taskGroups
    ensures RequireAdmin(session).Threw? ==> r == Failure(RequireAdmin(session).reason)
    ensures RequireAdmin(session).Ok? && GroupTitle(titel).None? ==> r == Failure(TitleRequired)
    ensures r.Success? <==> RequireAdmin(session).Ok? && GroupTitle(titel).Some? && freshId !in old(db.taskGroups)
    ensures db.taskGroups ==
      if r.Success? then old(db.taskGroups)[freshId := TaskGroup(GroupTitle(titel).value)] else old(db.taskGroups)
  {
    var admin := RequireAdmin(session);
    if admin.Threw? {
      return Failure(admin.reason);
    }
    var trimmed := GroupTitle(titel);
    if trimmed.None? {
      return Failure(TitleRequired);
    }
    if freshId in db.taskGroups {
      return Failure(StoreError);
    }
    db.taskGroups := db.taskGroups[freshId := TaskGroup(trimmed.value)];
    r := Success;
  }

  /** `deleteTaskGroup`: admins only. */
  method DeleteTaskGroup(db: Db, session: Session, groupId: Id) returns (r: ActionResult)
    modifies db`taskGroups
    ensures RequireAdmin(session).Threw? ==> r == Failure(RequireAdmin(session).reason)
    ensures r.Success? <==> RequireAdmin(session).Ok? && groupId in old(db.taskGroups)
    ensures db.taskGroups == if r.Success? then old(db.taskGroups) - {groupId} else old(db.taskGroups)
  {
    var admin := RequireAdmin(session);
    if admin.Threw? {
      return Failure(admin.reason);
    }
    if groupId !in db.taskGroups {
      return Failure(StoreError);
    }
    db.taskGroups := db.taskGroups - {groupId};
    r := Success;
  }
}
