/**
 * client/src/pages/Tasks.jsx: the two-column task board. Dropping a card
 * moves it between the "todo" and "done" columns; the columns are the two
 * halves of the task list; the add-task form builds the request body and
 * offers a search over the contacts to pick a customer.
 */
module TasksPage {
  import opened Options
  import opened TextRules
  import opened JsValues
  import opened JsArrays
  import opened ContactSearch
  import JsonDb

  datatype Task = Task(
    id: string, title: string, createdAt: string, dueDate: Option<string>, notes: string,
    customerId: Option<string>, customerName: Option<string>, completed: bool)

  function HasTaskId(id: string): Task -> bool {
    (t: Task) => t.id == id
  }

  predicate IsTodo(t: Task) { !t.completed }
  predicate IsDone(t: Task) { t.completed }

  /** `tasks.find(t => t.id === id)`: the first task with the id, or nothing. */
  function FindTask(tasks: seq<Task>, id: string): (r: Option<Task>)
    ensures r.None? <==> forall i :: 0 <= i < |tasks| ==> tasks[i].id != id
    ensures r.Some? ==> exists i :: 0 <= i < |tasks| && tasks[i] == r.value && r.value.id == id
                                    && forall j :: 0 <= j < i ==> tasks[j].id != id
  {
    var r := Find(tasks, HasTaskId(id));
    assert r.None? ==> forall i :: 0 <= i < |tasks| ==> tasks[i].id != id by {
      if r.None? {
        forall i | 0 <= i < |tasks| ensures tasks[i].id != id {
          assert !HasTaskId(id)(tasks[i]);
        }
      }
    }
    assert r.Some? ==> exists i :: 0 <= i < |tasks| && tasks[i] == r.value && r.value.id == id
                                   && forall j :: 0 <= j < i ==> tasks[j].id != id by {
      if r.Some? {
        var i :| 0 <= i < |tasks| && tasks[i] == r.value && HasTaskId(id)(r.value)
                 && forall j :: 0 <= j < i ==> !HasTaskId(id)(tasks[j]);
        forall j | 0 <= j < i ensures tasks[j].id != id {
          assert !HasTaskId(id)(tasks[j]);
        }
      }
    }
    r
  }

  /** The task found for an id is the one at the first index holding that id. */
  lemma FindTaskFirst(tasks: seq<Task>, id: string, i: nat)
    requires i < |tasks| && tasks[i].id == id
    requires forall j :: 0 <= j < i ==> tasks[j].id != id
    ensures FindTask(tasks, id) == Some(tasks[i])
  {
    var r := FindTask(tasks, id);
    var k :| 0 <= k < |tasks| && tasks[k] == r.value && r.value.id == id
             && forall j :: 0 <= j < k ==> tasks[j].id != id;
    assert !(k < i) && !(i < k);
  }

  // ------------------------------------------------------------ the columns

  /** The "todo" column: the tasks not completed, in list order. */
  function TodoTasks(tasks: seq<Task>): (r: seq<Task>)
    ensures forall t :: t in r <==> t in tasks && !t.completed
  {
    Filter(tasks, IsTodo)
  }

  /** The "done" column: the completed tasks, in list order. */
  function DoneTasks(tasks: seq<Task>): (r: seq<Task>)
    ensures forall t :: t in r <==> t in tasks && t.completed
  {
    Filter(tasks, IsDone)
  }

  /**
   * The columns partition the list: no task is in both, together they hold
   * every task as often as the list does, and each column lists the tasks of
   * a prefix of the list before those of the rest.
   */
  lemma ColumnsPartition(tasks: seq<Task>, k: nat)
    requires k <= |tasks|
    ensures forall t :: t in TodoTasks(tasks) ==> t !in DoneTasks(tasks)
    ensures multiset(TodoTasks(tasks)) + multiset(DoneTasks(tasks)) == multiset(tasks)
    ensures |TodoTasks(tasks)| + |DoneTasks(tasks)| == |tasks|
    ensures TodoTasks(tasks) == TodoTasks(tasks[..k]) + TodoTasks(tasks[k..])
    ensures DoneTasks(tasks) == DoneTasks(tasks[..k]) + DoneTasks(tasks[k..])
  {
    FilterPartition(tasks, IsTodo, IsDone);
    assert tasks == tasks[..k] + tasks[k..];
    FilterAppend(tasks[..k], tasks[k..], IsTodo);
    FilterAppend(tasks[..k], tasks[k..], IsDone);
  }

  // ------------------------------------------------------------ drag and drop

  /**
   * The column a card is dropped on, as its `completed` value: the column
   * itself, or the column of the task it is dropped onto, or nothing.
   */
  function TargetColumn(tasks: seq<Task>, overId: string): (r: Option<bool>)
    ensures overId == "todo" ==> r == Some(false)
    ensures overId == "done" ==> r == Some(true)
    ensures overId != "todo" && overId != "done" ==>
      r == match FindTask(tasks, overId) case None => None case Some(t) => Some(t.completed)
  {
    if overId == "todo" then Some(false)
    else if overId == "done" then Some(true)
    else match FindTask(tasks, overId)
      case None => None
      case Some(t) => Some(t.completed)
  }

  /** `tasks.map(t => t.id === id ? { ...t, completed } : t)` */
  function SetCompleted(tasks: seq<Task>, id: string, completed: bool): (r: seq<Task>)
    ensures |r| == |tasks|
    ensures forall i :: 0 <= i < |r| ==> r[i].id == tasks[i].id
    ensures forall i :: 0 <= i < |r| && tasks[i].id == id ==> r[i] == tasks[i].(completed := completed)
    ensures forall i :: 0 <= i < |r| && tasks[i].id != id ==> r[i] == tasks[i]
  {
    seq(|tasks|, i requires 0 <= i < |tasks| => if tasks[i].id == id then tasks[i].(completed := completed) else tasks[i])
  }

  /** The request body of PUT /api/tasks/:id sent after a move. */
  datatype StatusUpdate = StatusUpdate(id: string, completed: bool)

  /** When the drag-end handler moves the dragged card: it is found and lands in the other column. */
  predicate SendsUpdate(tasks: seq<Task>, activeId: string, overId: Option<string>) {
    && overId.Some? && FindTask(tasks, activeId).Some? && TargetColumn(tasks, overId.value).Some?
    && FindTask(tasks, activeId).value.completed != TargetColumn(tasks, overId.value).value
  }

  /**
   * The drag-end handler. `overId` is the id of what the card was dropped on,
   * None when it was dropped outside both columns. It returns the new task
   * list and the update to send, if any.
   */
  method HandleDragEnd(tasks: seq<Task>, activeId: string, overId: Option<string>)
    returns (newTasks: seq<Task>, update: Option<StatusUpdate>)
    ensures update.None? ==> newTasks == tasks
    ensures update.Some? <==> SendsUpdate(tasks, activeId, overId)
    ensures update.Some? ==>
      && update.value == StatusUpdate(activeId, TargetColumn(tasks, overId.value).value)
      && newTasks == SetCompleted(tasks, activeId, update.value.completed)
  {
    newTasks, update := tasks, None;
    if overId.None? {
      return;
    }
    var activeTask := FindTask(tasks, activeId);
    if activeTask.None? {
      return;
    }
    var targetContainer := overId.value;
    if targetContainer != "todo" && targetContainer != "done" {
      var overTask := FindTask(tasks, overId.value);
      if overTask.Some? {
        targetContainer := if overTask.value.completed then "done" else "todo";
      } else {
        return;
      }
    }
    var isCompleted := targetContainer == "done";
    if activeTask.value.completed != isCompleted {
      newTasks := SetCompleted(tasks, activeId, isCompleted);
      update := Some(StatusUpdate(activeId, isCompleted));
    }
  }

  /**
   * A card dropped onto its own column, onto itself, or onto another card of
   * its own column, stays where it is: by `HandleDragEnd`'s contract no update
   * is sent and the list is returned unchanged.
   */
  lemma DropInOwnColumnIsNoop(tasks: seq<Task>, activeId: string, overId: string)
    requires activeId != "todo" && activeId != "done"
    requires FindTask(tasks, activeId).Some?
    ensures var own := FindTask(tasks, activeId).value.completed;
      (|| overId == (if own then "done" else "todo")
       || overId == activeId
       || (overId != "todo" && overId != "done" && FindTask(tasks, overId).Some?
           && FindTask(tasks, overId).value.completed == own))
      ==> TargetColumn(tasks, overId) == Some(own) && !SendsUpdate(tasks, activeId, Some(overId))
  {
  }

  /**
   * With unique ids, a move changes the dragged task alone: it lands in the
   * target column, keeps its place in the list and every other field, and
   * every other task keeps its column.
   */
  lemma MoveChangesOnlyDragged(tasks: seq<Task>, i: nat, completed: bool)
    requires i < |tasks|
    requires forall j, k :: 0 <= j < k < |tasks| ==> tasks[j].id != tasks[k].id
    ensures var moved := SetCompleted(tasks, tasks[i].id, completed);
      && moved == tasks[i := tasks[i].(completed := completed)]
      && (tasks[i].(completed := completed) in DoneTasks(moved) <==> completed)
      && (tasks[i].(completed := completed) in TodoTasks(moved) <==> !completed)
  {
    var moved := SetCompleted(tasks, tasks[i].id, completed);
    forall j | 0 <= j < |tasks| && j != i ensures moved[j] == tasks[j] {
      if j < i {
        assert tasks[j].id != tasks[i].id;
      } else {
        assert tasks[i].id != tasks[j].id;
      }
    }
    assert moved == tasks[i := tasks[i].(completed := completed)];
    assert moved[i] in moved;
  }

  /** A move to the other column shifts exactly one task across. */
  lemma MoveShiftsOneTask(tasks: seq<Task>, i: nat)
    requires i < |tasks|
    requires forall j, k :: 0 <= j < k < |tasks| ==> tasks[j].id != tasks[k].id
    ensures var moved := SetCompleted(tasks, tasks[i].id, !tasks[i].completed);
      if tasks[i].completed then
        |DoneTasks(moved)| + 1 == |DoneTasks(tasks)| && |TodoTasks(moved)| == |TodoTasks(tasks)| + 1
      else
        |DoneTasks(moved)| == |DoneTasks(tasks)| + 1 && |TodoTasks(moved)| + 1 == |TodoTasks(tasks)|
  {
    var c := !tasks[i].completed;
    MoveChangesOnlyDragged(tasks, i, c);
    FilterUpdateLength(tasks, i, tasks[i].(completed := c), IsDone);
    FilterUpdateLength(tasks, i, tasks[i].(completed := c), IsTodo);
  }

  // ------------------------------------------------------------ adding a task

  datatype TaskForm = TaskForm(title: string, dueDate: string, notes: string, customerId: string, customerName: string)

  const BlankTaskForm := TaskForm("", "", "", "", "")

  /** `value || null` for a text field. */
  function OrNull(s: string): (v: Value)
    ensures v == Null <==> s == ""
    ensures s != "" ==> v == Str(s)
  {
    if s == "" then Null else Str(s)
  }

  /**
   * The body of POST /api/tasks, or nothing when the title is blank. `now`
   * is the creation time and `dueIso` the due date in ISO form, both as the
   * browser writes them.
   */
  function NewTaskBody(form: TaskForm, now: string, dueIso: string): (r: Option<Record>)
    ensures r.None? <==> IsBlank(form.title)
    ensures r.Some? ==> r.value == TaskBody(form, now, dueIso)
  {
    TrimEmptyIffBlank(form.title);
    if Trim(form.title) == "" then None else Some(TaskBody(form, now, dueIso))
  }

  /** The request body built from a form whose title is not blank. */
  function TaskBody(form: TaskForm, now: string, dueIso: string): (r: Record)
    ensures r.Keys == {"title", "createdAt", "dueDate", "notes", "customerId", "customerName", "completed"}
    ensures IsJson(r) && "id" !in r
    ensures r["completed"] == Bool(false)
    ensures r["title"] == Str(form.title) && r["notes"] == Str(form.notes) && r["createdAt"] == Str(now)
    ensures r["dueDate"] == (if form.dueDate == "" then Null else Str(dueIso))
    ensures r["customerId"] == OrNull(form.customerId) && r["customerName"] == OrNull(form.customerName)
  {
    map["title" := Str(form.title), "createdAt" := Str(now),
        "dueDate" := (if form.dueDate == "" then Null else Str(dueIso)),
        "notes" := Str(form.notes), "customerId" := OrNull(form.customerId),
        "customerName" := OrNull(form.customerName), "completed" := Bool(false)]
  }

  /** The server stores a new task under the id it generates, in the "todo" column. */
  lemma NewTaskIsTodo(form: TaskForm, now: string, dueIso: string, freshId: string)
    requires !IsBlank(form.title)
    ensures var stored := JsonDb.NewItem(NewTaskBody(form, now, dueIso).value, freshId);
      Get(stored, "id") == Str(freshId) && !Truthy(Get(stored, "completed"))
  {
    var body := TaskBody(form, now, dueIso);
    assert NewTaskBody(form, now, dueIso).value == body;
    var stored := JsonDb.NewItem(body, freshId);
    assert stored["id"] == Str(freshId);
    assert Get(stored, "completed") == Get(body, "completed");
  }

  /** The add-task modal: the form, the customer search text and whether the customer list is open. */
  datatype AddTaskState = AddTaskState(form: TaskForm, customerSearch: string, showDropdown: bool)

  /** Typing in the customer box. */
  function CustomerSearchChange(state: AddTaskState, value: string): (s: AddTaskState)
    ensures s == AddTaskState(state.form, value, true)
  {
    AddTaskState(state.form, value, true)
  }

  /** Picking a customer from the list. */
  function SelectCustomer(state: AddTaskState, c: Contact): (s: AddTaskState)
    ensures s.form == state.form.(customerId := c.id, customerName := c.name)
    ensures s.customerSearch == "" && !s.showDropdown
  {
    AddTaskState(state.form.(customerId := c.id, customerName := c.name), "", false)
  }

  /** The text in the customer box: the search text, or the chosen customer's name when there is none. */
  function CustomerBoxText(state: AddTaskState): (t: string)
    ensures state.customerSearch != "" ==> t == state.customerSearch
    ensures state.customerSearch == "" ==> t == state.form.customerName
  {
    if state.customerSearch != "" then state.customerSearch else state.form.customerName
  }

  /** The customer list: shown only while open and with a search text; the contacts that match it. */
  function CustomerDropdown(state: AddTaskState, contacts: seq<Contact>): (r: Option<seq<Contact>>)
    ensures r.Some? <==> state.showDropdown && state.customerSearch != ""
    ensures r.Some? ==> forall c :: c in r.value <==> c in contacts && SearchMatches(c, state.customerSearch)
  {
    if state.showDropdown && state.customerSearch != "" then Some(FilterContacts(contacts, state.customerSearch))
    else None
  }

  /** After the task is created: a blank form and an empty customer box. */
  function AfterAdd(state: AddTaskState): (s: AddTaskState)
    ensures s.form == BlankTaskForm && s.customerSearch == "" && s.showDropdown == state.showDropdown
  {
    state.(form := BlankTaskForm, customerSearch := "")
  }

  /** Cancelling the modal empties the customer box but keeps the form. */
  function Cancel(state: AddTaskState): (s: AddTaskState)
    ensures s.form == state.form && s.customerSearch == "" && !s.showDropdown
  {
    AddTaskState(state.form, "", false)
  }

  /**
   * After a pick the box shows the customer, the list is closed, and the
   * task sent names that customer.
   */
  lemma PickedCustomerIsSent(state: AddTaskState, c: Contact, now: string, dueIso: string)
    requires c.id != "" && c.name != ""
    requires !IsBlank(state.form.title)
    ensures var s := SelectCustomer(state, c);
      && CustomerBoxText(s) == c.name
      && CustomerDropdown(s, []).None?
      && NewTaskBody(s.form, now, dueIso).Some?
      && NewTaskBody(s.form, now, dueIso).value["customerId"] == Str(c.id)
      && NewTaskBody(s.form, now, dueIso).value["customerName"] == Str(c.name)
  {
  }
}
