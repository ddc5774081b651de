/**
 The two slices together, as the root store runs them: an action reaches both
 reducers, and the thunks decide from the API outcome whether a fulfilled
 action is dispatched at all. The invariant that couples the slices is that
 every todolist id is unique and has a key in the task store.
 */
module App {
  import opened Domain
  import Lists
  import Tasks
  import Todolists

  /** Todolist ids are unique and each has an entry in the task store. The
      converse does not hold: setTodolists never removes a key. */
  predicate Consistent(todolists: seq<TodolistDomain>, tasks: Tasks.TasksState)
  {
    && Lists.UniqueKeys(todolists, Todolists.ListId)
    && forall i :: 0 <= i < |todolists| ==> todolists[i].id in tasks
  }

  /** addTodolist.fulfilled, in both slices, with an id not yet used. */
  lemma AddTodolistKeepsConsistent(todolists: seq<TodolistDomain>, tasks: Tasks.TasksState, todolist: Todolist)
    requires Consistent(todolists, tasks)
    requires forall i :: 0 <= i < |todolists| ==> todolists[i].id != todolist.id
    ensures Consistent([Todolists.NewDomainList(todolist)] + todolists, tasks[todolist.id := []])
  {
  }

  /** removeTodolist.fulfilled, in both slices: the splice removes the only
      record with the id, so deleting its key orphans no todolist. */
  lemma RemoveTodolistKeepsConsistent(todolists: seq<TodolistDomain>, tasks: Tasks.TasksState, id: string)
    requires Consistent(todolists, tasks)
    ensures Consistent(Lists.RemoveFirst(todolists, Todolists.ListId, id), tasks - {id})
  {
    Lists.RemoveFirstOfUnique(todolists, Todolists.ListId, id);
  }

  /** setTodolists, in both slices, with a server list of distinct ids. */
  lemma SetTodolistsConsistent(tasks: Tasks.TasksState, server: seq<Todolist>)
    requires forall i, j :: 0 <= i < j < |server| ==> server[i].id != server[j].id
    ensures Consistent(Todolists.ToDomain(server), Tasks.ResetLists(tasks, server))
  {
  }

  /** The invariant is an inclusion and not an equality: the key of a list the
      server no longer returns survives setTodolists with no todolist left. */
  lemma SetTodolistsKeepsStaleKeys(tasks: Tasks.TasksState, server: seq<Todolist>, stale: string)
    requires stale in tasks
    requires forall i :: 0 <= i < |server| ==> server[i].id != stale
    ensures stale in Tasks.ResetLists(tasks, server)
    ensures forall i :: 0 <= i < |Todolists.ToDomain(server)| ==> Todolists.ToDomain(server)[i].id != stale
  {
  }

  /** clearTasksAndTodolists, in both slices. */
  lemma ClearIsConsistent()
    ensures Consistent([], map[])
  {
  }

  /** A local change keeps every id where it was. */
  lemma ChangeKeepsConsistent(todolists: seq<TodolistDomain>, tasks: Tasks.TasksState, id: string, c: Todolists.Change)
    requires Consistent(todolists, tasks)
    ensures Consistent(Todolists.ChangeFirst(todolists, id, c), tasks)
  {
  }

  /** Task actions only overwrite or add keys, which keeps the invariant. */
  lemma TaskKeysGrowKeepsConsistent(todolists: seq<TodolistDomain>, tasks: Tasks.TasksState, tasks': Tasks.TasksState)
    requires Consistent(todolists, tasks)
    requires tasks.Keys <= tasks'.Keys
    ensures Consistent(todolists, tasks')
  {
  }

  /** The root store: both slices, and the thunks that feed them. */
  class Store {
    const tasks: Tasks.TaskStore
    const todolists: Todolists.TodolistStore

    ghost predicate Valid()
      reads tasks, todolists
    {
      Consistent(todolists.state, tasks.state)
    }

    constructor ()
      ensures Valid() && fresh(tasks) && fresh(todolists)
      ensures tasks.state == map[] && todolists.state == []
    {
      tasks := new Tasks.TaskStore();
      todolists := new Todolists.TodolistStore();
    }

    /** fetchTasksTC: on fulfilment the list's entry becomes the server's
        items; on a throw neither slice changes. */
    method FetchTasks(todolistId: string, call: ApiCall<seq<Task>>)
      requires Valid()
      modifies tasks
      ensures Valid()
      ensures tasks.state == if call.Returned? then old(tasks.state)[todolistId := call.value] else old(tasks.state)
    {
      var settled := Tasks.FetchTasksThunk(call);
      if settled.Fulfilled? {
        tasks.FetchTasksFulfilled(todolistId, settled.payload);
      }
    }

    /** addTask: with result code 0 the created task is put first in the list
        its own todoListId names (which must exist); otherwise no change. */
    method AddTask(call: ApiCall<Response<Task>>)
      requires Valid()
      requires IsSuccess(call) ==> call.value.data.todoListId in tasks.state
      modifies tasks
      ensures Valid()
      ensures tasks.state ==
                if IsSuccess(call)
                then old(tasks.state)[call.value.data.todoListId := [call.value.data] + old(tasks.state)[call.value.data.todoListId]]
                else old(tasks.state)
    {
      var settled := Tasks.AddTaskThunk(call);
      if settled.Fulfilled? {
        tasks.AddTaskFulfilled(settled.payload);
      }
    }

    /** removeTaskTC: once deleteTask returns, the first task with the id is
        spliced out of the list (which must exist); on a throw no change. */
    method RemoveTask(arg: Tasks.RemoveTaskArg, call: ApiCall<Response<()>>)
      requires Valid()
      requires call.Returned? ==> arg.todolistId in tasks.state
      modifies tasks
      ensures Valid()
      ensures tasks.state ==
                if call.Returned?
                then old(tasks.state)[arg.todolistId := Lists.RemoveFirst(old(tasks.state)[arg.todolistId], Tasks.TaskId, arg.taskId)]
                else old(tasks.state)
    {
      var settled := Tasks.RemoveTaskThunk(arg, call);
      if settled.Fulfilled? {
        tasks.RemoveTaskFulfilled(settled.payload);
      }
    }

    /** updateTask: returns the request sent (None: the task was not found
        locally and no call was made); with result code 0 the local task gets
        the model overlaid, otherwise nothing changes. */
    method UpdateTask(arg: Tasks.UpdateTaskArg, call: ApiCall<Response<()>>) returns (sent: Option<UpdateTaskModel>)
      requires Valid()
      modifies tasks
      ensures Valid()
      ensures sent == Tasks.UpdateTaskRequest(old(tasks.state), arg)
      ensures tasks.state ==
                if sent.Some? && IsSuccess(call)
                then old(tasks.state)[arg.todolistId := Tasks.WithUpdatedTask(old(tasks.state)[arg.todolistId], arg.taskId, arg.domainModel)]
                else old(tasks.state)
    {
      var run := Tasks.UpdateTaskThunk(tasks.state, arg, call);
      sent := run.sent;
      if run.result.Fulfilled? {
        tasks.UpdateTaskFulfilled(run.result.payload);
      }
    }

    /** addTodolist.fulfilled: the server item goes first in the todolist
        slice and gets an empty task list; its id must be new. */
    method AddTodolist(todolist: Todolist)
      requires Valid()
      requires forall i :: 0 <= i < |todolists.state| ==> todolists.state[i].id != todolist.id
      modifies tasks, todolists
      ensures Valid()
      ensures todolists.state == [Todolists.NewDomainList(todolist)] + old(todolists.state)
      ensures tasks.state == old(tasks.state)[todolist.id := []]
    {
      AddTodolistKeepsConsistent(todolists.state, tasks.state, todolist);
      todolists.AddTodolistFulfilled(todolist);
      tasks.AddTodolistFulfilled(todolist.id);
    }

    /** removeTodolist: the list is marked "loading" before the call; once
        deleteTodolist returns, it is spliced out and its task key deleted; on
        a throw it stays marked "loading" and the task slice is unchanged. */
    method RemoveTodolist(id: string, call: ApiCall<Response<()>>)
      requires Valid()
      modifies tasks, todolists
      ensures Valid()
      ensures call.Returned? ==>
                && todolists.state == Lists.RemoveFirst(old(todolists.state), Todolists.ListId, id)
                && tasks.state == old(tasks.state) - {id}
      ensures call.Threw? ==>
                && todolists.state == Todolists.ChangeFirst(old(todolists.state), id, Todolists.SetEntityStatus(Loading))
                && tasks.state == old(tasks.state)
    {
      ChangeKeepsConsistent(todolists.state, tasks.state, id, Todolists.SetEntityStatus(Loading));
      Todolists.RemoveAfterChange(todolists.state, id, Todolists.SetEntityStatus(Loading));
      todolists.ChangeTodolistEntityStatus(id, Loading);
      var settled := Todolists.RemoveTodolistThunk(id, call);
      if settled.Fulfilled? {
        RemoveTodolistKeepsConsistent(todolists.state, tasks.state, settled.payload);
        todolists.RemoveTodolistFulfilled(settled.payload);
        tasks.RemoveTodolistFulfilled(settled.payload);
      }
    }

    /** setTodolists, in both slices; the server's ids must be distinct. */
    method SetTodolists(server: seq<Todolist>)
      requires Valid()
      requires forall i, j :: 0 <= i < j < |server| ==> server[i].id != server[j].id
      modifies tasks, todolists
      ensures Valid()
      ensures todolists.state == Todolists.ToDomain(server)
      ensures tasks.state == Tasks.ResetLists(old(tasks.state), server)
    {
      SetTodolistsConsistent(tasks.state, server);
      todolists.SetTodolists(server);
      tasks.SetTodolists(server);
    }

    /** clearTasksAndTodolists: both slices empty together. */
    method ClearTasksAndTodolists()
      requires Valid()
      modifies tasks, todolists
      ensures Valid()
      ensures todolists.state == [] && tasks.state == map[]
    {
      todolists.ClearTasksAndTodolists();
      tasks.ClearTasksAndTodolists();
    }

    /** A local change reducer (title, filter or entity status). */
    method ChangeTodolist(id: string, c: Todolists.Change)
      requires Valid()
      modifies todolists
      ensures Valid()
      ensures todolists.state == Todolists.ChangeFirst(old(todolists.state), id, c)
    {
      ChangeKeepsConsistent(todolists.state, tasks.state, id, c);
      todolists.ApplyChange(id, c);
    }
  }
}
