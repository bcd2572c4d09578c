/** The `Task` model of the tasks app: its fields and their defaults, the
    priority choices, the field validation its declarations imply, its string
    form and the derived `is_overdue` property. */
module TaskModel {
  import opened Wrappers

  /** An instant in time. Instants are totally ordered; any fixed unit
      (microseconds since an epoch, say) will do. */
  type Instant = int

  /** The primary key of the owning user. */
  type UserId = nat

  /** `title` is a character field of at most this many characters. */
  const MaxTitleLength: nat := 200

  /** `priority` is a character field of at most this many characters. */
  const MaxPriorityLength: nat := 10

  // ---------------------------------------------------------------------
  // Priority and its choices
  // ---------------------------------------------------------------------

  datatype Priority = Low | Medium | High

  /** The priority choices: (stored code, human-readable label), in their
      declared order. */
  const PriorityChoices: seq<(string, string)> :=
    [("low", "Low"), ("medium", "Medium"), ("high", "High")]

  /** The stored code a task gets when no priority is given. */
  const DefaultPriorityCode: string := "medium"

  /** The position of a priority in the choices. */
  function Ordinal(p: Priority): (i: nat)
    ensures i < |PriorityChoices|
  {
    match p
    case Low => 0
    case Medium => 1
    case High => 2
  }

  /** The priority declared at position `i` of the choices. */
  function PriorityAt(i: nat): (p: Priority)
    requires i < |PriorityChoices|
    ensures Ordinal(p) == i
  {
    if i == 0 then Low else if i == 1 then Medium else High
  }

  /** The code under which a priority is stored: it fits the column. */
  function Code(p: Priority): (s: string)
    ensures 0 < |s| <= MaxPriorityLength
  {
    PriorityChoices[Ordinal(p)].0
  }

  /** The position of the first choice whose code is `s`, if any. */
  function IndexOfCode(choices: seq<(string, string)>, s: string): (r: Option<nat>)
    ensures r.Some? ==> r.value < |choices| && choices[r.value].0 == s
    ensures r.Some? ==> forall j | 0 <= j < r.value :: choices[j].0 != s
    ensures r.None? ==> forall j | 0 <= j < |choices| :: choices[j].0 != s
  {
    if choices == [] then None
    else if choices[0].0 == s then Some(0)
    else
      match IndexOfCode(choices[1..], s)
      case None => None
      case Some(i) => Some(i + 1)
  }

  /** Reads a stored code back as a priority; `None` when the code is not one
      of the choices (the choices check of field validation). */
  function PriorityFromCode(s: string): (r: Option<Priority>)
    ensures r.Some? ==> Code(r.value) == s
    ensures r.None? ==> forall i | 0 <= i < |PriorityChoices| :: PriorityChoices[i].0 != s
  {
    match IndexOfCode(PriorityChoices, s)
    case None => None
    case Some(i) => Some(PriorityAt(i))
  }

  /** Every priority is read back from its own code. */
  lemma CodeRoundTrip(p: Priority)
    ensures PriorityFromCode(Code(p)) == Some(p)
  {
  }

  /** Distinct priorities are stored under distinct codes. */
  lemma CodeInjective(p: Priority, q: Priority)
    requires Code(p) == Code(q)
    ensures p == q
  {
  }

  // ---------------------------------------------------------------------
  // The task record
  // ---------------------------------------------------------------------

  /** One stored task. `toCompleteAt` is the optional due time. */
  datatype Task = Task(
    title: string,
    description: Option<string>,
    createdAt: Instant,
    toCompleteAt: Option<Instant>,
    priority: Priority,
    completed: bool,
    owner: UserId)

  /** What field validation guarantees of a stored task: a non-blank title
      of at most `MaxTitleLength` characters. */
  predicate Valid(t: Task) {
    0 < |t.title| <= MaxTitleLength
  }

  /** A field that failed validation, and why. */
  datatype FieldError =
    | BlankTitle
    | TitleTooLong(length: nat)
    | BlankPriority
    | InvalidPriority(code: string)

  /** The error, if any, that validation reports for a title: blank values
      are rejected first, then values over the maximum length. */
  function TitleError(title: string): (e: Option<FieldError>)
    ensures e.None? <==> 0 < |title| <= MaxTitleLength
    ensures e.Some? ==> (e.value == BlankTitle <==> title == [])
    ensures e == Some(TitleTooLong(|title|)) <==> MaxTitleLength < |title|
  {
    if title == [] then Some(BlankTitle)
    else if MaxTitleLength < |title| then Some(TitleTooLong(|title|))
    else None
  }

  /** The error, if any, that validation reports for a priority code: the
      field does not admit blank values, so an empty code is rejected as
      blank before the choices are consulted; any other code must be one of
      the choices. */
  function PriorityError(code: string): (e: Option<FieldError>)
    ensures e.None? <==> PriorityFromCode(code).Some?
    ensures e == Some(BlankPriority) <==> code == []
    ensures e.Some? && code != [] ==> e.value == InvalidPriority(code)
  {
    if code == [] then Some(BlankPriority)
    else if PriorityFromCode(code).Some? then None
    else Some(InvalidPriority(code))
  }

  /** The errors of an optional result, as a list of zero or one. */
  function Errors(e: Option<FieldError>): seq<FieldError> {
    match e
    case None => []
    case Some(x) => [x]
  }

  /** Creates a task: an omitted `priority` takes the code "medium" and an
      omitted `completed` takes `false`; then every field is validated and
      the errors of all failing fields are reported together, in field
      order. `createdAt` is the creation instant and `owner` the user. */
  function CreateTask(
    title: string,
    description: Option<string>,
    createdAt: Instant,
    toCompleteAt: Option<Instant>,
    owner: UserId,
    priority: Option<string>,
    completed: Option<bool>): (r: Result<Task, seq<FieldError>>)
    ensures r.Success? <==>
      0 < |title| <= MaxTitleLength
      && (priority.None? || PriorityFromCode(priority.value).Some?)
    ensures r.Success? ==> Valid(r.value)
    ensures r.Success? ==>
      && r.value.title == title
      && r.value.description == description
      && r.value.createdAt == createdAt
      && r.value.toCompleteAt == toCompleteAt
      && r.value.owner == owner
    ensures r.Success? && priority.None? ==> r.value.priority == Medium
    ensures r.Success? && priority.Some? ==> Code(r.value.priority) == priority.value
    ensures r.Success? && completed.None? ==> !r.value.completed
    ensures r.Success? && completed.Some? ==> r.value.completed == completed.value
    ensures r.Failure? ==> r.error != []
    ensures r.Failure? ==>
      && (BlankTitle in r.error <==> title == [])
      && (TitleTooLong(|title|) in r.error <==> MaxTitleLength < |title|)
      && (BlankPriority in r.error <==> priority == Some([]))
      && (InvalidPriority(priority.GetOr(DefaultPriorityCode)) in r.error
          <==> priority.Some? && priority.value != [] && PriorityFromCode(priority.value).None?)
    // Nothing else is reported, each failing field once, the title first.
    ensures r.Failure? ==>
      && (forall e | e in r.error ::
            e == BlankTitle || e == TitleTooLong(|title|)
            || e == BlankPriority || e == InvalidPriority(priority.GetOr(DefaultPriorityCode)))
      && |r.error| == (if 0 < |title| <= MaxTitleLength then 0 else 1)
                      + (if priority.None? || PriorityFromCode(priority.value).Some? then 0 else 1)
      && (TitleError(title).Some? ==> r.error[0] == TitleError(title).value)
  {
    var code := priority.GetOr(DefaultPriorityCode);
    var errors := Errors(TitleError(title)) + Errors(PriorityError(code));
    if errors != [] then
      Failure(errors)
    else
      Success(Task(title, description, createdAt, toCompleteAt,
                   PriorityFromCode(code).value, completed.GetOr(false), owner))
  }

  /** The string form of a task: its title. For a validated task it is never
      empty and fits the title column. */
  function Str(t: Task): (s: string)
    ensures Valid(t) ==> 0 < |s| <= MaxTitleLength
  {
    t.title
  }

  // ---------------------------------------------------------------------
  // Overdue
  // ---------------------------------------------------------------------

  /** Whether the task is overdue at instant `now`: a task without a due time
      never is; otherwise it is when it is not completed and its due time is
      strictly before `now`. */
  function IsOverdue(t: Task, now: Instant): (b: bool)
    ensures t.toCompleteAt.None? ==> !b
    ensures t.completed ==> !b
    ensures t.toCompleteAt == Some(now) ==> !b
    ensures b ==> t.toCompleteAt.Some? && t.toCompleteAt.value < now
  {
    if t.toCompleteAt.None? then false
    else !t.completed && t.toCompleteAt.value < now
  }
}
