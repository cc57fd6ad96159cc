/** The Tasks page: the pending/completed split of the tasks and the add/edit/toggle/
    delete handlers that drive the data provider. */
module TasksPage {
  import opened Js
  import opened Lists
  import opened DataContext

  /** `task.completed` read as a condition. */
  predicate IsCompleted(task: Record) {
    Truthy(Get(task, "completed"))
  }

  /** `tasks.filter(task => !task.completed)` */
  function PendingTasks(tasks: seq<Record>): (r: seq<Record>)
    ensures forall i :: 0 <= i < |r| ==> !IsCompleted(r[i])
    ensures forall i :: 0 <= i < |tasks| && !IsCompleted(tasks[i]) ==> tasks[i] in r
    ensures forall i :: 0 <= i < |r| ==> r[i] in tasks
    ensures Subseq(r, tasks)
  {
    FilterIsSubseq(tasks, (t: Record) => !IsCompleted(t));
    Filter(tasks, (t: Record) => !IsCompleted(t))
  }

  /** `tasks.filter(task => task.completed)` */
  function CompletedTasks(tasks: seq<Record>): (r: seq<Record>)
    ensures forall i :: 0 <= i < |r| ==> IsCompleted(r[i])
    ensures forall i :: 0 <= i < |tasks| && IsCompleted(tasks[i]) ==> tasks[i] in r
    ensures forall i :: 0 <= i < |r| ==> r[i] in tasks
    ensures Subseq(r, tasks)
  {
    FilterIsSubseq(tasks, IsCompleted);
    Filter(tasks, IsCompleted)
  }

  /** The two lists partition the tasks: every task lands in exactly one of them, and their
      lengths add up to the number of tasks. */
  lemma TasksPartition(tasks: seq<Record>)
    ensures |PendingTasks(tasks)| + |CompletedTasks(tasks)| == |tasks|
    ensures forall i :: 0 <= i < |tasks| ==>
              (tasks[i] in PendingTasks(tasks) <==> tasks[i] !in CompletedTasks(tasks))
  {
    FilterComplement(tasks, IsCompleted, (t: Record) => !IsCompleted(t));
    var pending, completed := PendingTasks(tasks), CompletedTasks(tasks);
    forall i | 0 <= i < |tasks|
      ensures tasks[i] in pending <==> tasks[i] !in completed
    {
      if tasks[i] in pending {
        var k :| 0 <= k < |pending| && pending[k] == tasks[i];
      }
      if tasks[i] in completed {
        var k :| 0 <= k < |completed| && completed[k] == tasks[i];
      }
    }
  }

  // ---------------------------------------------------------------------------
  // The form
  // ---------------------------------------------------------------------------

  /** The form's initial and reset state. */
  const EmptyTaskForm: Record := map["title" := Str(""), "description" := Str(""), "status" := Str("pending")]

  /** The guard `title.trim()` and the fields handed to add/update. */
  function TaskSubmission(form: Record): (s: Submission)
    ensures s.Ready? <==>
      Get(form, "title").Str? && Trim(Get(form, "title").s) != "" && Get(form, "description").Str?
    ensures s.Ignored? <==> Get(form, "title").Str? && Trim(Get(form, "title").s) == ""
    ensures s.Ready? ==>
      s.fields == map["title" := Str(Trim(Get(form, "title").s)),
                      "description" := Str(Trim(Get(form, "description").s)),
                      "status" := Get(form, "status")]
  {
    match TrimValue(Get(form, "title"))
    case None => Threw
    case Some(title) =>
      if title == "" then Ignored
      else
        match TrimValue(Get(form, "description"))
        case None => Threw
        case Some(description) =>
          Ready(map["title" := Str(title), "description" := Str(description), "status" := Get(form, "status")])
  }

  /** The record the add path builds: `completed` is true exactly when the chosen status is
      "completed". */
  function NewTask(fields: Record): (r: Record)
    ensures r.Keys == fields.Keys + {"completed"}
    ensures r["completed"] == Bool(Get(fields, "status") == Str("completed"))
    ensures forall k :: k in fields && k != "completed" ==> r[k] == fields[k]
  {
    fields["completed" := Bool(Get(fields, "status") == Str("completed"))]
  }

  /** `handleEdit`'s form: the status is "completed" exactly when that task is completed. */
  function TaskEditForm(task: Record): (f: Record)
    ensures f.Keys == EmptyTaskForm.Keys
    ensures f["title"] == Get(task, "title")
    ensures f["status"] == Str("completed") <==> IsCompleted(task)
    ensures !IsCompleted(task) ==> f["status"] == Str("pending")
    ensures Truthy(Get(task, "description")) ==> f["description"] == Get(task, "description")
    ensures !Truthy(Get(task, "description")) ==> f["description"] == Str("")
  {
    var description := Get(task, "description");
    map["title" := Get(task, "title"),
        "description" := if Truthy(description) then description else Str(""),
        "status" := Str(if IsCompleted(task) then "completed" else "pending")]
  }

  /** Opening a task for editing and submitting it unchanged goes ahead, and the update
      keeps whether that task is completed (exactly, when `completed` is a boolean). */
  lemma EditThenSubmitKeepsCompleted(task: Record)
    requires Get(task, "title").Str? && Trim(Get(task, "title").s) != ""
    requires Truthy(Get(task, "description")) ==> Get(task, "description").Str?
    ensures var s := TaskSubmission(TaskEditForm(task));
            && s.Ready?
            && (IsCompleted(StatusedTask(task, s.fields)) <==> IsCompleted(task))
            && (Get(task, "completed").Bool? ==>
                  StatusedTask(task, s.fields)["completed"] == Get(task, "completed"))
  {
    var f := TaskEditForm(task);
    assert Get(f, "title") == Get(task, "title");
    assert Get(f, "description").Str?;
    var title := Get(task, "title").s;
    assert TrimValue(Get(f, "title")) == Some(Trim(title));
    var s := TaskSubmission(f);
    assert s.Ready?;
    var status := Get(s.fields, "status");
    assert status == f["status"];
    var updated := StatusedTask(task, s.fields);
    assert updated["completed"] == Bool(status == Str("completed"));
  }

  /** A task created from a form and opened for editing shows the status it was created
      with, when that status was "completed" or "pending". */
  lemma NewTaskStatusRoundTrip(fields: Record)
    requires Get(fields, "status") in {Str("completed"), Str("pending")}
    ensures TaskEditForm(NewTask(fields))["status"] == Get(fields, "status")
  {
    var t := NewTask(fields);
    assert Get(t, "completed") == Bool(Get(fields, "status") == Str("completed"));
  }

  // ---------------------------------------------------------------------------
  // The page
  // ---------------------------------------------------------------------------

  class TasksPage {
    const data: DataProvider
    var form: Record
    /** The id of the edited task (`null` when adding). */
    var editingTask: Value
    var showAddForm: bool
    var showDeleteConfirm: bool
    var deleteTaskId: Value

    constructor (data: DataProvider)
      ensures this.data == data && form == EmptyTaskForm && editingTask == Null
      ensures !showAddForm && !showDeleteConfirm && deleteTaskId == Null
    {
      this.data := data;
      form, editingTask := EmptyTaskForm, Null;
      showAddForm, showDeleteConfirm, deleteTaskId := false, false, Null;
    }

    /** The "Add New Task" button: an empty form, not editing. */
    method OpenAddForm()
      modifies this`form, this`editingTask, this`showAddForm
      ensures form == EmptyTaskForm && editingTask == Null && showAddForm
    {
      form := EmptyTaskForm;
      editingTask := Null;
      showAddForm := true;
    }

    /** The state after a submit that went ahead with `fields`: the edited task was updated
        (and editing ended), or a new task was added; the form is reset and closed. */
    twostate predicate Submitted(fields: Record, now: int)
      reads this, data
    {
      && (Truthy(old(editingTask)) ==>
            data.Committed(TasksKind, TasksUpdated(old(data.tasks), old(editingTask), fields))
            && editingTask == Null)
      && (!Truthy(old(editingTask)) ==>
            data.Committed(TasksKind, Appended(old(data.tasks), NewTask(fields), now))
            && editingTask == old(editingTask))
      && form == EmptyTaskForm && !showAddForm
    }

    /** `handleSubmit`: the guard, then the update or the add; a failed guard or a throw
        changes nothing. */
    method HandleSubmit(now: int, outcome: PushOutcome) returns (s: Submission)
      modifies this`form, this`editingTask, this`showAddForm
      modifies data`tasks, data`storage, data`outbox
      ensures s == TaskSubmission(old(form))
      ensures !s.Ready? ==> unchanged(this) && unchanged(data)
      ensures s.Ready? ==> Submitted(s.fields, now)
    {
      s := TaskSubmission(form);
      if s.Ready? {
        Commit(s.fields, now, outcome);
      }
    }

    /** The body of `handleSubmit` once the guard has passed. */
    method Commit(fields: Record, now: int, outcome: PushOutcome)
      modifies this`form, this`editingTask, this`showAddForm
      modifies data`tasks, data`storage, data`outbox
      ensures Submitted(fields, now)
    {
      if Truthy(editingTask) {
        data.UpdateTask(editingTask, fields, outcome);
        editingTask := Null;
      } else {
        data.AddTask(NewTask(fields), now, outcome);
      }
      form := EmptyTaskForm;
      showAddForm := false;
    }

    /** `handleEdit`: load a task into the form and remember its id. */
    method HandleEdit(task: Record)
      modifies this`form, this`editingTask, this`showAddForm
      ensures form == TaskEditForm(task) && editingTask == Get(task, "id") && showAddForm
    {
      form := TaskEditForm(task);
      editingTask := Get(task, "id");
      showAddForm := true;
    }

    method HandleToggle(id: Value, outcome: PushOutcome)
      modifies data`tasks, data`storage, data`outbox
      ensures data.Committed(TasksKind, TasksToggled(old(data.tasks), id))
    {
      data.ToggleTask(id, outcome);
    }

    method HandleDeleteClick(id: Value)
      modifies this`deleteTaskId, this`showDeleteConfirm
      ensures deleteTaskId == id && showDeleteConfirm
    {
      deleteTaskId := id;
      showDeleteConfirm := true;
    }

    /** `confirmDelete`: removes only while a (truthy) id is pending, then clears it. */
    method ConfirmDelete(outcome: PushOutcome)
      modifies this`deleteTaskId, this`showDeleteConfirm, data`tasks, data`storage, data`outbox
      ensures Truthy(old(deleteTaskId)) ==>
                data.Committed(TasksKind, WithoutId(old(data.tasks), old(deleteTaskId)))
                && deleteTaskId == Null && !showDeleteConfirm
      ensures !Truthy(old(deleteTaskId)) ==> unchanged(this) && unchanged(data)
    {
      if Truthy(deleteTaskId) {
        data.RemoveTask(deleteTaskId, outcome);
        showDeleteConfirm := false;
        deleteTaskId := Null;
      }
    }

    method CancelDelete()
      modifies this`deleteTaskId, this`showDeleteConfirm
      ensures deleteTaskId == Null && !showDeleteConfirm
    {
      showDeleteConfirm := false;
      deleteTaskId := Null;
    }
  }
}
