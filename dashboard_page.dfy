/** The task list of src/pages/DashboardPage.tsx: the list reconciliations its
    handlers apply after each API reply (replace by id, append, filter by id),
    the completed/pending counts, and the modal and delete-dialog state. Each
    async handler runs to completion with the awaited outcome as a parameter. */
module DashboardPage {
  import opened Common
  import opened Api

  datatype TaskForm = TaskForm(title: string, description: string)

  const BLANK_FORM := TaskForm("", "")

  /** The request a handler sends to the task API. */
  datatype TaskRequest =
    | UpdateTask(id: int, form: TaskForm)
    | CreateTask(form: TaskForm)
    | SetCompleted(id: int, completed: bool)

  /** `tasks.map(t => t.id === id ? replacement : t)`. */
  function ReplaceById(tasks: seq<Task>, id: int, replacement: Task): (r: seq<Task>)
    ensures |r| == |tasks|
    ensures forall i :: 0 <= i < |r| ==> r[i] == if tasks[i].id == id then replacement else tasks[i]
  {
    if tasks == [] then []
    else [if tasks[0].id == id then replacement else tasks[0]] + ReplaceById(tasks[1..], id, replacement)
  }

  /** A list without the id is left exactly as it was. */
  lemma ReplaceByIdAbsent(tasks: seq<Task>, id: int, replacement: Task)
    requires forall i :: 0 <= i < |tasks| ==> tasks[i].id != id
    ensures ReplaceById(tasks, id, replacement) == tasks
  {
    var r := ReplaceById(tasks, id, replacement);
    assert forall i :: 0 <= i < |r| ==> r[i] == tasks[i];
  }

  /** `tasks.filter(t => t.id !== id)`. */
  function RemoveById(tasks: seq<Task>, id: int): (r: seq<Task>)
    ensures |r| <= |tasks|
    ensures forall t :: t in r <==> t in tasks && t.id != id
  {
    if tasks == [] then []
    else if tasks[0].id != id then [tasks[0]] + RemoveById(tasks[1..], id)
    else RemoveById(tasks[1..], id)
  }

  /** Filtering distributes over concatenation, so the surviving tasks keep
      their relative order. */
  lemma {:induction false} RemoveByIdConcat(a: seq<Task>, b: seq<Task>, id: int)
    ensures RemoveById(a + b, id) == RemoveById(a, id) + RemoveById(b, id)
  {
    if a == [] {
      assert a + b == b;
    } else {
      assert (a + b)[0] == a[0];
      assert (a + b)[1..] == a[1..] + b;
      RemoveByIdConcat(a[1..], b, id);
    }
  }

  /** Removing an id no task has changes nothing. */
  lemma {:induction false} RemoveByIdAbsent(tasks: seq<Task>, id: int)
    requires forall i :: 0 <= i < |tasks| ==> tasks[i].id != id
    ensures RemoveById(tasks, id) == tasks
  {
    if tasks != [] {
      RemoveByIdAbsent(tasks[1..], id);
    }
  }

  /** `tasks.filter(t => t.completed)`. */
  function CompletedTasks(tasks: seq<Task>): (r: seq<Task>)
    ensures forall t :: t in r <==> t in tasks && t.completed
  {
    if tasks == [] then []
    else if tasks[0].completed then [tasks[0]] + CompletedTasks(tasks[1..])
    else CompletedTasks(tasks[1..])
  }

  /** `tasks.filter(t => !t.completed)`. */
  function PendingTasks(tasks: seq<Task>): (r: seq<Task>)
    ensures forall t :: t in r <==> t in tasks && !t.completed
  {
    if tasks == [] then []
    else if !tasks[0].completed then [tasks[0]] + PendingTasks(tasks[1..])
    else PendingTasks(tasks[1..])
  }

  /** Every task is counted exactly once: completedCount + pendingCount = tasks.length. */
  lemma {:induction false} CountsPartition(tasks: seq<Task>)
    ensures |CompletedTasks(tasks)| + |PendingTasks(tasks)| == |tasks|
  {
    if tasks != [] {
      CountsPartition(tasks[1..]);
    }
  }

  /** The completed filter keeps a completed task as often as it occurs, and no other task. */
  lemma {:induction false} CompletedMultiplicity(tasks: seq<Task>, t: Task)
    ensures multiset(CompletedTasks(tasks))[t] == if t.completed then multiset(tasks)[t] else 0
  {
    if tasks != [] {
      CompletedMultiplicity(tasks[1..], t);
      var head := if tasks[0].completed then [tasks[0]] else [];
      assert CompletedTasks(tasks) == head + CompletedTasks(tasks[1..]);
      assert multiset(tasks) == multiset([tasks[0]]) + multiset(tasks[1..]) by {
        assert tasks == [tasks[0]] + tasks[1..];
      }
    }
  }

  /** The pending filter keeps a pending task as often as it occurs, and no other task. */
  lemma {:induction false} PendingMultiplicity(tasks: seq<Task>, t: Task)
    ensures multiset(PendingTasks(tasks))[t] == if t.completed then 0 else multiset(tasks)[t]
  {
    if tasks != [] {
      PendingMultiplicity(tasks[1..], t);
      var head := if !tasks[0].completed then [tasks[0]] else [];
      assert PendingTasks(tasks) == head + PendingTasks(tasks[1..]);
      assert multiset(tasks) == multiset([tasks[0]]) + multiset(tasks[1..]) by {
        assert tasks == [tasks[0]] + tasks[1..];
      }
    }
  }

  /** The completed and pending tasks together are the list, as a multiset. */
  lemma CountsPartitionMultiset(tasks: seq<Task>)
    ensures multiset(CompletedTasks(tasks)) + multiset(PendingTasks(tasks)) == multiset(tasks)
  {
    forall t | true
      ensures (multiset(CompletedTasks(tasks)) + multiset(PendingTasks(tasks)))[t] == multiset(tasks)[t]
    {
      CompletedMultiplicity(tasks, t);
      PendingMultiplicity(tasks, t);
    }
  }

  /** The completed filter distributes over concatenation, so it keeps the list's order. */
  lemma {:induction false} CompletedConcat(a: seq<Task>, b: seq<Task>)
    ensures CompletedTasks(a + b) == CompletedTasks(a) + CompletedTasks(b)
  {
    if a == [] {
      assert a + b == b;
    } else {
      assert (a + b)[0] == a[0];
      assert (a + b)[1..] == a[1..] + b;
      CompletedConcat(a[1..], b);
    }
  }

  /** The pending filter distributes over concatenation, so it keeps the list's order. */
  lemma {:induction false} PendingConcat(a: seq<Task>, b: seq<Task>)
    ensures PendingTasks(a + b) == PendingTasks(a) + PendingTasks(b)
  {
    if a == [] {
      assert a + b == b;
    } else {
      assert (a + b)[0] == a[0];
      assert (a + b)[1..] == a[1..] + b;
      PendingConcat(a[1..], b);
    }
  }

  /** The list after a save that returned: the server's task replaces the edited
      one by id, or is appended when creating; only a reply with `success` and
      `data` changes anything. */
  function SavedTasks(tasks: seq<Task>, editing: Option<Task>, c: Call<Task>): (r: seq<Task>)
    ensures !(c.Returned? && Succeeded(c.body)) ==> r == tasks
    ensures c.Returned? && Succeeded(c.body) && editing.Some? ==>
              r == ReplaceById(tasks, editing.value.id, c.body.data.value)
    ensures c.Returned? && Succeeded(c.body) && editing.None? ==>
              |r| == |tasks| + 1 && r[..|tasks|] == tasks && r[|tasks|] == c.body.data.value
  {
    if c.Returned? && Succeeded(c.body) then
      if editing.Some? then ReplaceById(tasks, editing.value.id, c.body.data.value)
      else tasks + [c.body.data.value]
    else tasks
  }

  class Dashboard {
    var tasks: seq<Task>
    var isLoading: bool
    var showModal: bool
    var isDeleteDialogOpen: bool
    var editingTask: Option<Task>
    var formData: TaskForm
    var isSubmitting: bool
    var currentTaskId: Option<int>

    constructor ()
      ensures tasks == [] && isLoading && !showModal && !isDeleteDialogOpen
      ensures editingTask == None && formData == BLANK_FORM && !isSubmitting && currentTaskId == None
    {
      tasks, isLoading, showModal, isDeleteDialogOpen := [], true, false, false;
      editingTask, formData, isSubmitting, currentTaskId := None, BLANK_FORM, false, None;
    }

    function CompletedCount(): nat
      reads this
    {
      |CompletedTasks(tasks)|
    }

    function PendingCount(): nat
      reads this
    {
      |PendingTasks(tasks)|
    }

    /** `fetchTasks`: a reply with `success` and `data` replaces the list; loading ends. */
    method FetchTasks(c: Call<seq<Task>>)
      modifies this
      ensures tasks == if c.Returned? && Succeeded(c.body) then c.body.data.value else old(tasks)
      ensures !isLoading
      ensures unchanged(this`showModal, this`isDeleteDialogOpen, this`editingTask, this`formData,
                        this`isSubmitting, this`currentTaskId)
    {
      isLoading := true;
      if c.Returned? && Succeeded(c.body) {
        tasks := c.body.data.value;
      }
      isLoading := false;
    }

    /** `closeModal`. */
    method CloseModal()
      modifies this
      ensures !showModal && editingTask == None && formData == BLANK_FORM
      ensures unchanged(this`tasks, this`isLoading, this`isDeleteDialogOpen, this`isSubmitting,
                        this`currentTaskId)
    {
      showModal, editingTask, formData := false, None, BLANK_FORM;
    }

    /** `handleSubmit`: update the edited task or create one from the form; any
        reply closes the modal and blanks the form, even one without `success`,
        while an exception leaves the modal as it was; never left submitting. */
    method HandleSubmit(c: Call<Task>) returns (request: TaskRequest)
      modifies this
      ensures request == if old(editingTask).Some? then UpdateTask(old(editingTask).value.id, old(formData))
                         else CreateTask(old(formData))
      ensures tasks == SavedTasks(old(tasks), old(editingTask), c)
      ensures !isSubmitting
      ensures c.Returned? ==> !showModal && editingTask == None && formData == BLANK_FORM
      ensures c.Threw? ==> showModal == old(showModal) && editingTask == old(editingTask)
                           && formData == old(formData)
      ensures unchanged(this`isLoading, this`isDeleteDialogOpen, this`currentTaskId)
    {
      isSubmitting := true;
      if editingTask.Some? {
        request := UpdateTask(editingTask.value.id, formData);
        if c.Returned? && Succeeded(c.body) {
          tasks := ReplaceById(tasks, editingTask.value.id, c.body.data.value);
        }
      } else {
        request := CreateTask(formData);
        if c.Returned? && Succeeded(c.body) {
          tasks := tasks + [c.body.data.value];
        }
      }
      if c.Returned? {
        CloseModal();
      }
      isSubmitting := false;
    }

    /** `handleDeleteClick`: remember the id and open the confirmation dialog. */
    method HandleDeleteClick(id: int)
      modifies this
      ensures currentTaskId == Some(id) && isDeleteDialogOpen
      ensures unchanged(this`tasks, this`isLoading, this`showModal, this`editingTask, this`formData,
                        this`isSubmitting)
    {
      currentTaskId := Some(id);
      isDeleteDialogOpen := true;
    }

    /** `confirmDeleteTask`: nothing at all without a selected id; otherwise a
        reply with `success` removes every task with that id, and the dialog
        closes and the selection resets whatever the outcome. */
    method ConfirmDelete(c: Call<()>) returns (request: Option<int>)
      modifies this
      ensures request == old(currentTaskId)
      ensures old(currentTaskId).None? ==>
                isDeleteDialogOpen == old(isDeleteDialogOpen) && currentTaskId == None && tasks == old(tasks)
      ensures old(currentTaskId).Some? ==>
                !isDeleteDialogOpen && currentTaskId == None
                && tasks == if c.Returned? && c.body.success then RemoveById(old(tasks), old(currentTaskId).value)
                            else old(tasks)
      ensures unchanged(this`isLoading, this`showModal, this`editingTask, this`formData, this`isSubmitting)
    {
      request := currentTaskId;
      if currentTaskId.None? {
        return;
      }
      if c.Returned? && c.body.success {
        tasks := RemoveById(tasks, currentTaskId.value);
      }
      isDeleteDialogOpen := false;
      currentTaskId := None;
    }

    /** `handleToggleComplete`: ask for the flipped flag; a reply with `success`
        and `data` replaces that task by id with the server's version. */
    method ToggleComplete(task: Task, c: Call<Task>) returns (request: TaskRequest)
      modifies this
      ensures request == SetCompleted(task.id, !task.completed)
      ensures tasks == if c.Returned? && Succeeded(c.body) then ReplaceById(old(tasks), task.id, c.body.data.value)
                       else old(tasks)
      ensures unchanged(this`isLoading, this`showModal, this`isDeleteDialogOpen, this`editingTask,
                        this`formData, this`isSubmitting, this`currentTaskId)
    {
      request := SetCompleted(task.id, !task.completed);
      if c.Returned? && Succeeded(c.body) {
        tasks := ReplaceById(tasks, task.id, c.body.data.value);
      }
    }

    /** `openCreateModal`: no task under edit and a blank form. */
    method OpenCreateModal()
      modifies this
      ensures showModal && editingTask == None && formData == BLANK_FORM
      ensures unchanged(this`tasks, this`isLoading, this`isDeleteDialogOpen, this`isSubmitting,
                        this`currentTaskId)
    {
      editingTask, formData, showModal := None, BLANK_FORM, true;
    }

    /** `openEditModal`: the task under edit and its title and description in the form. */
    method OpenEditModal(task: Task)
      modifies this
      ensures showModal && editingTask == Some(task) && formData == TaskForm(task.title, task.description)
      ensures unchanged(this`tasks, this`isLoading, this`isDeleteDialogOpen, this`isSubmitting,
                        this`currentTaskId)
    {
      editingTask, formData, showModal := Some(task), TaskForm(task.title, task.description), true;
    }

    /** The two counters shown on the page always add up to the number of tasks. */
    method Counts() returns (completed: nat, pending: nat)
      ensures completed == |CompletedTasks(tasks)| && pending == |PendingTasks(tasks)|
      ensures completed + pending == |tasks|
    {
      completed, pending := CompletedCount(), PendingCount();
      CountsPartition(tasks);
    }
  }
}
