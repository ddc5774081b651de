/**
 The task store: a map from todolist id to that list's tasks, newest first,
 with the cases of its reducer and the decisions its thunks take on the
 outcome of their API calls.
 */
module Tasks {
  import opened Domain
  import Lists

  /** TasksStateType. */
  type TasksState = map<string, seq<Task>>

  /** The key `findIndex` and `find` compare: the task's id. */
  function TaskId(t: Task): string
  {
    t.id
  }

  /** The argument (and fulfilled payload) of updateTask. */
  datatype UpdateTaskArg = UpdateTaskArg(taskId: string, domainModel: UpdateDomainTaskModel, todolistId: string)

  /** The argument (and fulfilled payload) of removeTaskTC. */
  datatype RemoveTaskArg = RemoveTaskArg(todolistId: string, taskId: string)

  /** `{...task, ...domainModel}`: every field present in the model replaces the
      task's, every absent field and the task's id and list id stay. */
  function ApplyDomainModel(t: Task, m: UpdateDomainTaskModel): (r: Task)
    ensures r.id == t.id && r.todoListId == t.todoListId
    ensures m.title.Some? ==> r.title == m.title.value
    ensures m.title.None? ==> r.title == t.title
    ensures m.description.Some? ==> r.description == m.description.value
    ensures m.description.None? ==> r.description == t.description
    ensures m.status.Some? ==> r.status == m.status.value
    ensures m.status.None? ==> r.status == t.status
    ensures m.priority.Some? ==> r.priority == m.priority.value
    ensures m.priority.None? ==> r.priority == t.priority
    ensures m.startDate.Some? ==> r.startDate == m.startDate.value
    ensures m.startDate.None? ==> r.startDate == t.startDate
    ensures m.deadline.Some? ==> r.deadline == m.deadline.value
    ensures m.deadline.None? ==> r.deadline == t.deadline
  {
    t.(title := m.title.GetOr(t.title),
       description := m.description.GetOr(t.description),
       status := m.status.GetOr(t.status),
       priority := m.priority.GetOr(t.priority),
       startDate := m.startDate.GetOr(t.startDate),
       deadline := m.deadline.GetOr(t.deadline))
  }

  /** `{...a, ...b}` on two domain models: b's present fields win. */
  function MergeModels(a: UpdateDomainTaskModel, b: UpdateDomainTaskModel): UpdateDomainTaskModel
  {
    UpdateDomainTaskModel(
      if b.title.Some? then b.title else a.title,
      if b.description.Some? then b.description else a.description,
      if b.status.Some? then b.status else a.status,
      if b.priority.Some? then b.priority else a.priority,
      if b.startDate.Some? then b.startDate else a.startDate,
      if b.deadline.Some? then b.deadline else a.deadline)
  }

  /** The model with no field present. */
  const EmptyModel := UpdateDomainTaskModel(None, None, None, None, None, None)

  /** Overlaying nothing changes nothing; overlaying the same model twice is
      overlaying it once; two overlays in a row are one overlay of the merge. */
  lemma ApplyDomainModelLaws(t: Task, a: UpdateDomainTaskModel, b: UpdateDomainTaskModel)
    ensures ApplyDomainModel(t, EmptyModel) == t
    ensures ApplyDomainModel(ApplyDomainModel(t, a), a) == ApplyDomainModel(t, a)
    ensures ApplyDomainModel(ApplyDomainModel(t, a), b) == ApplyDomainModel(t, MergeModels(a, b))
  {
  }

  /** The full record sent to the update endpoint: the existing task's deadline,
      description, priority, startDate, title and status, with the domain
      model's present fields laid over them. */
  function BuildApiModel(t: Task, m: UpdateDomainTaskModel): (r: UpdateTaskModel)
    ensures r.title == (if m.title.Some? then m.title.value else t.title)
    ensures r.description == (if m.description.Some? then m.description.value else t.description)
    ensures r.status == (if m.status.Some? then m.status.value else t.status)
    ensures r.priority == (if m.priority.Some? then m.priority.value else t.priority)
    ensures r.startDate == (if m.startDate.Some? then m.startDate.value else t.startDate)
    ensures r.deadline == (if m.deadline.Some? then m.deadline.value else t.deadline)
  {
    UpdateTaskModel(
      m.deadline.GetOr(t.deadline),
      m.description.GetOr(t.description),
      m.priority.GetOr(t.priority),
      m.startDate.GetOr(t.startDate),
      m.title.GetOr(t.title),
      m.status.GetOr(t.status))
  }

  /** The fields of a task that the update endpoint takes. */
  function ApiFields(t: Task): UpdateTaskModel
  {
    UpdateTaskModel(t.deadline, t.description, t.priority, t.startDate, t.title, t.status)
  }

  /** The record the thunk sends is exactly what the fulfilled case later
      stores locally, so the local merge agrees with the request. */
  lemma PayloadMatchesLocalMerge(t: Task, m: UpdateDomainTaskModel)
    ensures BuildApiModel(t, m) == ApiFields(ApplyDomainModel(t, m))
  {
  }

  /** updateTask.fulfilled on one list: the first task with the id gets the
      model overlaid; every other task, the order and the length stay. */
  function WithUpdatedTask(tasks: seq<Task>, taskId: string, m: UpdateDomainTaskModel): (r: seq<Task>)
    ensures |r| == |tasks|
    ensures forall j :: 0 <= j < |tasks| && j != Lists.FirstIndex(tasks, TaskId, taskId) ==> r[j] == tasks[j]
    ensures forall j :: 0 <= j < |tasks| ==> r[j].id == tasks[j].id && r[j].todoListId == tasks[j].todoListId
    ensures Lists.FirstIndex(tasks, TaskId, taskId) >= 0 ==>
              r[Lists.FirstIndex(tasks, TaskId, taskId)] == ApplyDomainModel(tasks[Lists.FirstIndex(tasks, TaskId, taskId)], m)
  {
    var i := Lists.FirstIndex(tasks, TaskId, taskId);
    if i == -1 then tasks else tasks[i := ApplyDomainModel(tasks[i], m)]
  }

  /** The effect of setTodolists on the task store, one `forEach` step per
      listed todolist: every listed id maps to the empty sequence, every other
      key keeps its tasks, and no key is removed. */
  function ResetLists(state: TasksState, todolists: seq<Todolist>): (r: TasksState)
    ensures forall k :: k in r <==> k in state || exists i :: 0 <= i < |todolists| && todolists[i].id == k
    ensures forall i :: 0 <= i < |todolists| ==> todolists[i].id in r && r[todolists[i].id] == []
    ensures forall k :: k in state && (forall i :: 0 <= i < |todolists| ==> todolists[i].id != k) ==> r[k] == state[k]
    decreases |todolists|
  {
    if todolists == [] then state
    else ResetLists(state[todolists[0].id := []], todolists[1..])
  }

  /** fetchTasksTC: fulfilled with the server's items whenever getTasks
      returns; rejected when it throws. */
  function FetchTasksThunk(call: ApiCall<seq<Task>>): (r: Settled<seq<Task>>)
    ensures r.Fulfilled? <==> call.Returned?
    ensures r.Fulfilled? ==> r.payload == call.value
  {
    match call
    case Returned(items) => Fulfilled(items)
    case Threw => Rejected
  }

  /** addTask: fulfilled with the created task exactly when the response's
      result code is 0; any other code, or a throw, rejects without payload. */
  function AddTaskThunk(call: ApiCall<Response<Task>>): (r: Settled<Task>)
    ensures r.Fulfilled? <==> call.Returned? && call.value.resultCode == 0
    ensures r.Fulfilled? ==> r.payload == call.value.data
  {
    if IsSuccess(call) then Fulfilled(call.value.data) else Rejected
  }

  /** removeTaskTC: fulfilled with its own argument whenever deleteTask
      returns, whatever the result code; rejected only when it throws. */
  function RemoveTaskThunk(arg: RemoveTaskArg, call: ApiCall<Response<()>>): (r: Settled<RemoveTaskArg>)
    ensures r.Fulfilled? <==> call.Returned?
    ensures r.Fulfilled? ==> r.payload == arg
  {
    if call.Returned? then Fulfilled(arg) else Rejected
  }

  /** The request updateTask sends, decided from the current state before any
      call: None when the list key is missing (the lookup throws and is caught)
      or no task of that list has the id; otherwise the fields of the first
      such task, the one `find` returns, with the domain model overlaid. */
  function UpdateTaskRequest(state: TasksState, arg: UpdateTaskArg): (r: Option<UpdateTaskModel>)
    ensures r.None? <==>
              arg.todolistId !in state ||
              forall j :: 0 <= j < |state[arg.todolistId]| ==> state[arg.todolistId][j].id != arg.taskId
    ensures r.Some? ==>
              r.value == BuildApiModel(state[arg.todolistId][Lists.FirstIndex(state[arg.todolistId], TaskId, arg.taskId)], arg.domainModel)
  {
    if arg.todolistId !in state then None
    else
      var i := Lists.FirstIndex(state[arg.todolistId], TaskId, arg.taskId);
      if i == -1 then None else Some(BuildApiModel(state[arg.todolistId][i], arg.domainModel))
  }

  /** One run of updateTask: the request it sent (None: no call was made)
      and how it settled. */
  datatype UpdateTaskRun = UpdateTaskRun(sent: Option<UpdateTaskModel>, result: Settled<UpdateTaskArg>)

  /** updateTask: a task not found locally rejects before the API is called;
      otherwise the built request is sent and the thunk is fulfilled with its
      argument exactly when the response's result code is 0. */
  function UpdateTaskThunk(state: TasksState, arg: UpdateTaskArg, call: ApiCall<Response<()>>): (r: UpdateTaskRun)
    ensures r.sent == UpdateTaskRequest(state, arg)
    ensures r.sent.None? ==> r.result == Rejected
    ensures r.result.Fulfilled? <==> r.sent.Some? && call.Returned? && call.value.resultCode == 0
    ensures r.result.Fulfilled? ==> r.result.payload == arg
  {
    var request := UpdateTaskRequest(state, arg);
    if request.None? then UpdateTaskRun(None, Rejected)
    else UpdateTaskRun(request, if IsSuccess(call) then Fulfilled(arg) else Rejected)
  }

  /** The task slice's state, updated in place by its reducer cases. */
  class TaskStore {
    var state: TasksState

    constructor ()
      ensures state == map[]
    {
      state := map[];
    }

    /** fetchTasksTC.fulfilled: the list's entry becomes the server's sequence. */
    method FetchTasksFulfilled(todolistId: string, tasks: seq<Task>)
      modifies this
      ensures state == old(state)[todolistId := tasks]
    {
      state := state[todolistId := tasks];
    }

    /** addTask.fulfilled: `unshift` onto the list named by the task itself. */
    method AddTaskFulfilled(task: Task)
      requires task.todoListId in state
      modifies this
      ensures state == old(state)[task.todoListId := [task] + old(state)[task.todoListId]]
    {
      var tasks := state[task.todoListId];
      state := state[task.todoListId := [task] + tasks];
    }

    /** removeTaskTC.fulfilled: `findIndex`, then `splice` when found. */
    method RemoveTaskFulfilled(arg: RemoveTaskArg)
      requires arg.todolistId in state
      modifies this
      ensures state == old(state)[arg.todolistId := Lists.RemoveFirst(old(state)[arg.todolistId], TaskId, arg.taskId)]
    {
      var tasks := state[arg.todolistId];
      var index := Lists.FindIndex(tasks, TaskId, arg.taskId);
      if index != -1 {
        state := state[arg.todolistId := tasks[..index] + tasks[index + 1..]];
      } else {
        assert state == state[arg.todolistId := tasks];
      }
    }

    /** updateTask.fulfilled: `findIndex`, then replace the element with the
        overlay when found. */
    method UpdateTaskFulfilled(arg: UpdateTaskArg)
      requires arg.todolistId in state
      modifies this
      ensures state == old(state)[arg.todolistId := WithUpdatedTask(old(state)[arg.todolistId], arg.taskId, arg.domainModel)]
    {
      var tasks := state[arg.todolistId];
      var index := Lists.FindIndex(tasks, TaskId, arg.taskId);
      if index != -1 {
        state := state[arg.todolistId := tasks[index := ApplyDomainModel(tasks[index], arg.domainModel)]];
      } else {
        assert state == state[arg.todolistId := tasks];
      }
    }

    /** addTodolist.fulfilled: an empty list under the new todolist's id. */
    method AddTodolistFulfilled(id: string)
      modifies this
      ensures state == old(state)[id := []]
    {
      state := state[id := []];
    }

    /** removeTodolist.fulfilled: `delete state[id]`. */
    method RemoveTodolistFulfilled(id: string)
      modifies this
      ensures state == old(state) - {id}
    {
      state := state - {id};
    }

    /** setTodolists: the `forEach` that writes an empty list per todolist. */
    method SetTodolists(todolists: seq<Todolist>)
      modifies this
      ensures state == ResetLists(old(state), todolists)
    {
      var i := 0;
      while i < |todolists|
        invariant 0 <= i <= |todolists|
        invariant ResetLists(state, todolists[i..]) == ResetLists(old(state), todolists)
      {
        assert todolists[i..][1..] == todolists[i + 1..];
        state := state[todolists[i].id := []];
        i := i + 1;
      }
    }

    /** clearTasksAndTodolists: the empty map. */
    method ClearTasksAndTodolists()
      modifies this
      ensures state == map[]
    {
      state := map[];
    }
  }
}
