/** Properties of the `Task` model that relate several of its members or
    several instants. */
module TaskProperties {
  import opened Wrappers
  import opened TaskModel

  /** The overdue property exactly: a due time exists, the task is not
      completed, and the due time is strictly before `now`. */
  lemma OverdueExactly(t: Task, now: Instant)
    ensures IsOverdue(t, now) <==>
      t.toCompleteAt.Some? && !t.completed && t.toCompleteAt.value < now
  {
  }

  /** Once overdue, a task stays overdue at every later instant as long as
      it does not change. */
  lemma OverdueStaysOverdue(t: Task, now: Instant, later: Instant)
    requires IsOverdue(t, now)
    requires now <= later
    ensures IsOverdue(t, later)
  {
  }

  /** Being overdue depends on the due time and the completion state only:
      title, description, priority, creation time and owner play no part. */
  lemma OverdueIgnoresOtherFields(t: Task, u: Task, now: Instant)
    requires t.toCompleteAt == u.toCompleteAt && t.completed == u.completed
    ensures IsOverdue(t, now) == IsOverdue(u, now)
  {
  }

  /** A task can ever be overdue exactly when it has a due time and is not
      completed; such a task is not overdue at its due time and is overdue
      at every instant after it. */
  lemma EventuallyOverdue(t: Task)
    ensures (exists now :: IsOverdue(t, now)) <==> t.toCompleteAt.Some? && !t.completed
    ensures t.toCompleteAt.Some? && !t.completed ==>
      !IsOverdue(t, t.toCompleteAt.value)
      && forall now | t.toCompleteAt.value < now :: IsOverdue(t, now)
  {
    if t.toCompleteAt.Some? && !t.completed {
      assert IsOverdue(t, t.toCompleteAt.value + 1);
    }
  }

  /** A task created without a priority or a completion state has priority
      medium and is not completed; creation then fails only on the title. */
  lemma CreateDefaults(
    title: string, description: Option<string>, createdAt: Instant,
    toCompleteAt: Option<Instant>, owner: UserId)
    ensures var r := CreateTask(title, description, createdAt, toCompleteAt, owner, None, None);
      && (r.Success? <==> 0 < |title| <= MaxTitleLength)
      && (r.Success? ==> r.value.priority == Medium && !r.value.completed)
      && (r.Failure? ==> r.error == [TitleError(title).value])
  {
  }

  /** Creating a task with the code of a priority gives that priority, and
      fails only on the title. */
  lemma CreateWithPriority(
    title: string, description: Option<string>, createdAt: Instant,
    toCompleteAt: Option<Instant>, owner: UserId, p: Priority, completed: Option<bool>)
    ensures var r := CreateTask(title, description, createdAt, toCompleteAt, owner, Some(Code(p)), completed);
      && (r.Success? <==> 0 < |title| <= MaxTitleLength)
      && (r.Success? ==> r.value.priority == p)
  {
  }

  /** A code that is not one of the choices is refused, whatever the
      title: the priority is always one of low, medium and high. An empty
      code is refused as blank, any other as an invalid choice. */
  lemma CreateRejectsUnknownPriority(
    title: string, description: Option<string>, createdAt: Instant,
    toCompleteAt: Option<Instant>, owner: UserId, code: string, completed: Option<bool>)
    requires code != Code(Low) && code != Code(Medium) && code != Code(High)
    ensures var r := CreateTask(title, description, createdAt, toCompleteAt, owner, Some(code), completed);
      && r.Failure?
      && (code == [] ==> BlankPriority in r.error && InvalidPriority(code) !in r.error)
      && (code != [] ==> InvalidPriority(code) in r.error && BlankPriority !in r.error)
  {
  }

  /** A newly created, not yet completed task with a due time becomes
      overdue exactly after that due time. */
  lemma CreatedTaskOverdue(
    title: string, description: Option<string>, createdAt: Instant,
    due: Instant, owner: UserId, priority: Option<string>, now: Instant)
    requires CreateTask(title, description, createdAt, Some(due), owner, priority, None).Success?
    ensures IsOverdue(CreateTask(title, description, createdAt, Some(due), owner, priority, None).value, now)
      <==> due < now
  {
  }

  /** The string form of a created task is the title it was created with. */
  lemma StrOfCreatedTask(
    title: string, description: Option<string>, createdAt: Instant,
    toCompleteAt: Option<Instant>, owner: UserId, priority: Option<string>, completed: Option<bool>)
    requires CreateTask(title, description, createdAt, toCompleteAt, owner, priority, completed).Success?
    ensures Str(CreateTask(title, description, createdAt, toCompleteAt, owner, priority, completed).value) == title
  {
  }
}
