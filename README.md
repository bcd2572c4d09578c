# Task model of the tasks app

This project models the `Task` model of a small Django task-tracking
application (`tasks/models.py`) and proves its properties.

- A task has a title of at most 200 characters, which must not be blank.
  It has an optional description and a creation instant. It has an
  optional due time (`to_complete_at`). Its priority is one of `low`,
  `medium` and `high`, and defaults to `medium`. Its `completed` flag
  defaults to false. It has an owning user.
- The priority is stored as a code string and checked against
  `PRIORITY_CHOICES`. In the model, `Priority` is a datatype.
  `Code` and `PriorityFromCode` convert between a priority and its stored
  code by looking it up in the choices table.
- `CreateTask` builds a task. It first applies the field defaults, as the
  model's constructor does. It then applies the checks that the field
  declarations imply when fields are validated: the title must not be blank
  and must fit 200 characters; the priority code must not be blank either,
  and must be one of the choices. The result is either the task or the
  list of all field errors, each failing field once, in field order.
- `Str` is the string form (`__str__`), which is the title.
- `IsOverdue(t, now)` is the `is_overdue` property. The instant `now`
  stands for the current time and is passed in explicitly. A task is
  overdue exactly when it has a due time, is not completed, and the due
  time is strictly before `now`.

Files: `wrappers.dfy` (Option and Result), `task_model.dfy` (module
`TaskModel`: the data model and the operations) and `task_properties.dfy`
(module `TaskProperties`: lemmas that relate several members or several
instants).

Instants are integers with their usual order. The unit does not matter,
since the model only compares instants.

The application computes no dashboard statistics; the dashboard view
(tasks/views.py:11-13) only lists every task, so nothing of it is
modelled.

## Model

| member | source | states |
|---|---|---|
| `TaskModel.Code` | tasks/models.py:6-16 | the stored code of every priority is non-empty and fits the 10-character priority column |
| `TaskModel.IndexOfCode` | tasks/models.py:16 | finds the first choice whose code is the given string; `None` exactly when no choice has that code |
| `TaskModel.PriorityFromCode` | tasks/models.py:6-16 | a code is read back as the priority whose code it is; `None` exactly when the code is not among the priority choices |
| `TaskModel.CodeRoundTrip` | tasks/models.py:6-10 | every priority is read back from its own stored code |
| `TaskModel.CodeInjective` | tasks/models.py:6-10 | distinct priorities have distinct stored codes |
| `TaskModel.TitleError` | tasks/models.py:12 | a title is accepted exactly when it is non-empty and at most 200 characters long; an empty title is reported as blank, a longer one as too long, with its length |
| `TaskModel.PriorityError` | tasks/models.py:16 | a priority code is accepted exactly when it is one of the choices; an empty code is reported as blank, any other unknown code as an invalid choice |
| `TaskModel.CreateTask` | tasks/models.py:12-18 | creation succeeds exactly when the title is valid and the priority, if given, is a known code; the task then keeps the given fields, has priority medium and is not completed unless told otherwise, and holds at most 200 title characters; on failure exactly the failing fields are reported, each once, the title's error first |
| `TaskModel.Str` | tasks/models.py:20-21 | the string form of a validated task is non-empty and at most 200 characters |
| `TaskModel.IsOverdue` | tasks/models.py:23-27 | a task without a due time is never overdue; a completed task is never overdue; a task due exactly at `now` is not overdue; an overdue task's due time is strictly before `now` |
| `TaskProperties.OverdueExactly` | tasks/models.py:23-27 | overdue if and only if a due time exists, the task is not completed, and the due time is strictly before `now` |
| `TaskProperties.OverdueStaysOverdue` | tasks/models.py:27 | a task overdue at `now` stays overdue at every later instant while it does not change |
| `TaskProperties.OverdueIgnoresOtherFields` | tasks/models.py:23-27 | two tasks with the same due time and completion state agree on being overdue at every instant |
| `TaskProperties.EventuallyOverdue` | tasks/models.py:25-27 | a task can be overdue at some instant exactly when it has a due time and is not completed; such a task is not overdue at its due time and is overdue at every later instant |
| `TaskProperties.CreateDefaults` | tasks/models.py:16-17 | a task created without priority or completion state has priority medium and is not completed; creation then fails only with the title's error |
| `TaskProperties.CreateWithPriority` | tasks/models.py:16 | creating with the code of a priority yields that priority, and fails only on the title |
| `TaskProperties.CreateRejectsUnknownPriority` | tasks/models.py:6-16 | a code other than low, medium or high is always refused, as blank when empty and as an invalid choice otherwise, so a created task's priority is one of the three |
| `TaskProperties.CreatedTaskOverdue` | tasks/models.py:15-27 | a newly created task with a due time, created without a completion state, is overdue exactly at the instants after its due time |
| `TaskProperties.StrOfCreatedTask` | tasks/models.py:12-21 | the string form of a created task is the title it was created with |

## Left out

- `timezone.now()` is not called. The current instant is the `now` parameter of `IsOverdue`.
- Time zones are not modelled. Python's error on comparing a naive with an aware datetime is not modelled either. Instants are plain integers.
- `if not self.to_complete_at` is modelled as "no due time". A Python datetime value is always truthy, so only a missing value takes that branch.
- `created_at` is filled in by the database layer on first save (`auto_now_add`). Here it is a parameter of `CreateTask`.
- The `user` foreign key is an owner id parameter. Its cascade delete is persistence behaviour and is not modelled.
- The automatic primary key (`id`) is assigned by the database and is not modelled.
- The description accepts both no value and an empty string, so it is an `Option<string>` with no check.
- The model's constructor alone does not validate fields; validation runs when the model is cleaned. `CreateTask` models the combination of the two, which is how a record is meant to reach storage. Storing an unvalidated record directly (for example, a 201-character title on a database that does not enforce column widths) is not modelled.
- The human-readable priority labels (`Low`, `Medium`, `High`) appear in the choices table but are only display text, so no operation over them is modelled.
- `tasks/views.py` holds HTTP request handlers for login, logout, signup and the dashboard. These are framework I/O and are not modelled.
- `tasks/forms.py` configures form widgets, placeholders and which fields are required, and hides `completed` on new tasks. This is presentation configuration and is not modelled.
- `tasks/urls.py` is a routing table with no behaviour, and is not modelled.
