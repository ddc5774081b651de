# Todolists and tasks: the client-side stores

A model of the two Redux Toolkit slices that keep the client's mirror of
todolists and their tasks, and of the decisions their async thunks take on
the outcome of a remote API call.

- `lists.dfy` (module `Lists`): `findIndex` by id and the `splice` of the
  first match, shared by both slices.
- `domain.dfy` (module `Domain`): tasks, todolists, the client-only filter and
  entity status, the partial update model, the full update record, the
  `ResultCode` values, and the outcome of an API call (`ApiCall`: it returns or
  throws) and of a thunk (`Settled`: fulfilled with a payload or rejected).
- `tasks.dfy` (module `Tasks`): the task slice, a map from todolist id to that
  list's tasks. `TaskStore` is a class whose methods are the reducer cases,
  each updating the map in place and proved against the pure functions beside
  it. The thunks `fetchTasksTC`, `addTask`, `removeTaskTC` and `updateTask` are
  pure functions from the API outcome to how they settle. `updateTask` also
  gives the request it sends, or None when it rejects before calling.
- `todolists.dfy` (module `Todolists`): the todolist slice, an ordered sequence
  of records. `TodolistStore` holds the local change reducers, `setTodolists`
  and the `extraReducers` cases.
- `app.dfy` (module `App`): both slices together. `Consistent` is the
  cross-slice invariant: todolist ids are unique and every todolist id is a key
  of the task map. Lemmas show that each paired reducer case keeps it. `Store`
  runs each thunk and dispatches its fulfilled action to both slices, and every
  method keeps `Consistent`.

Behaviour of the code that the model keeps as written, although a
synchronisation layer might be expected to do otherwise:

- `removeTaskTC` and `removeTodolist` never look at the result code. A
  returned call counts as success whatever the code says, and only a throw
  rejects (tasks.reducer.ts:119-120, todolists.reducer.ts:76-78).
- After a failed `removeTodolist`, the list stays marked `loading`. Nothing
  reverts it (todolists.reducer.ts:75, 80-83).
- `setTodolists` only adds task keys, so the invariant is "ids ⊆ keys", not
  equality. `App.SetTodolistsKeepsStaleKeys` shows a key that outlives its
  todolist.
- In `updateTask`, a missing list key makes the lookup throw inside the `try`
  block. The catch turns that into a rejection with no API call, so the model
  treats it as "not found locally" rather than as a precondition
  (tasks.reducer.ts:147-154).
- `fetchTodolists.fulfilled` is handled by no reducer and changes neither
  slice. Both slices are filled through `setTodolists`.

## Model

| member | source | states |
|---|---|---|
| Lists.FirstIndex | src/features/TodolistsList/tasks.reducer.ts:37 | -1 exactly when no element has the id; otherwise an index whose element has the id and before which none does |
| Lists.FindIndex | src/features/TodolistsList/tasks.reducer.ts:37 | the `findIndex` loop returns the first matching index, or -1 |
| Lists.RemoveFirst | src/features/TodolistsList/tasks.reducer.ts:37-38 | no match leaves the sequence unchanged; otherwise one element fewer, the elements before the first match in place and the later ones shifted down by one |
| Lists.FirstIndexOfSameKeys | src/features/TodolistsList/todolists.reducer.ts:16-17 | where the first match sits depends only on the ids, position by position |
| Lists.RemoveFirstOfUnique | src/features/TodolistsList/todolists.reducer.ts:42-45 | on a sequence with unique ids, the splice removes exactly the id: the remaining ids are the old ones minus it, still unique |
| Tasks.ApplyDomainModel | src/features/TodolistsList/tasks.reducer.ts:44 | each field present in the domain model replaces the task's; absent fields, the id and the list id are kept |
| Tasks.ApplyDomainModelLaws | src/features/TodolistsList/tasks.reducer.ts:44 | overlaying the empty model is the identity; overlaying twice is overlaying once; two overlays are one overlay of the merged model |
| Tasks.BuildApiModel | src/features/TodolistsList/tasks.reducer.ts:156-164 | the update record is the task's deadline, description, priority, startDate, title and status with each present model field laid over it |
| Tasks.PayloadMatchesLocalMerge | src/features/TodolistsList/tasks.reducer.ts:156-164 | the record sent to the server equals the updatable fields of the task the fulfilled case stores |
| Tasks.WithUpdatedTask | src/features/TodolistsList/tasks.reducer.ts:40-46 | only the first task with the id changes, to the overlay; length, order, ids and every other task are kept; a missing id changes nothing |
| Tasks.ResetLists | src/features/TodolistsList/tasks.reducer.ts:56-60 | every listed id maps to the empty sequence, unlisted keys keep their tasks, and keys are only added |
| Tasks.FetchTasksThunk | src/features/TodolistsList/tasks.reducer.ts:68-84 | fulfilled with the server's items exactly when getTasks returns; rejected when it throws |
| Tasks.AddTaskThunk | src/features/TodolistsList/tasks.reducer.ts:92-113 | fulfilled with the created task exactly when the call returns with result code 0; any other code or a throw rejects |
| Tasks.RemoveTaskThunk | src/features/TodolistsList/tasks.reducer.ts:115-128 | fulfilled with its own argument whenever deleteTask returns, whatever the result code; rejected only on a throw |
| Tasks.UpdateTaskRequest | src/features/TodolistsList/tasks.reducer.ts:148-164 | no request exactly when the list key is missing or no task of the list has the id; otherwise the update record built from the first task with that id, the one `find` returns |
| Tasks.UpdateTaskThunk | src/features/TodolistsList/tasks.reducer.ts:144-179 | sends the request of UpdateTaskRequest; without one it rejects before any call; fulfilled with its argument exactly when a request was sent and answered with result code 0 |
| Tasks.TaskStore.constructor | src/features/TodolistsList/tasks.reducer.ts:18 | the initial task map is empty |
| Tasks.TaskStore.FetchTasksFulfilled | src/features/TodolistsList/tasks.reducer.ts:27-30 | the list's entry becomes the server's sequence in the same order; every other key is unchanged |
| Tasks.TaskStore.AddTaskFulfilled | src/features/TodolistsList/tasks.reducer.ts:31-34 | the task is put first in the list its own todoListId names, which must exist; the rest of that list and every other key are unchanged |
| Tasks.TaskStore.RemoveTaskFulfilled | src/features/TodolistsList/tasks.reducer.ts:35-39 | the list, which must exist, loses its first task with the id (no change if none); other keys are unchanged |
| Tasks.TaskStore.UpdateTaskFulfilled | src/features/TodolistsList/tasks.reducer.ts:40-46 | the list, which must exist, becomes WithUpdatedTask of itself; other keys are unchanged |
| Tasks.TaskStore.AddTodolistFulfilled | src/features/TodolistsList/tasks.reducer.ts:50-52 | the new todolist id maps to the empty sequence; other keys are unchanged |
| Tasks.TaskStore.RemoveTodolistFulfilled | src/features/TodolistsList/tasks.reducer.ts:53-55 | the todolist's key is deleted; other keys are unchanged |
| Tasks.TaskStore.SetTodolists | src/features/TodolistsList/tasks.reducer.ts:56-60 | the `forEach` loop leaves the map ResetLists describes |
| Tasks.TaskStore.ClearTasksAndTodolists | src/features/TodolistsList/tasks.reducer.ts:61-63 | the task map becomes empty |
| Todolists.NewDomainList | src/features/TodolistsList/todolists.reducer.ts:47 | the record keeps every server field and gets filter "all" and entity status "idle" |
| Todolists.ToDomain | src/features/TodolistsList/todolists.reducer.ts:33-34 | same length and order as the server list; each record copies its server fields and gets filter "all" and entity status "idle" |
| Todolists.ChangeField | src/features/TodolistsList/todolists.reducer.ts:15-32 | only the change's one field is assigned; every other field is kept |
| Todolists.ChangeFirst | src/features/TodolistsList/todolists.reducer.ts:15-32 | only the first record with the id changes, in the change's field; length, order, ids and other records are kept; an absent id changes nothing |
| Todolists.RemoveAfterChange | src/features/TodolistsList/todolists.reducer.ts:75-78 | marking a list before deleting it finds and splices the same record, so the result equals splicing directly |
| Todolists.RemoveTodolistThunk | src/features/TodolistsList/todolists.reducer.ts:69-86 | fulfilled with its own id whenever deleteTodolist returns, whatever the result code; rejected only on a throw |
| Todolists.TodolistStore.constructor | src/features/TodolistsList/todolists.reducer.ts:9 | the initial todolist sequence is empty |
| Todolists.TodolistStore.ApplyChange | src/features/TodolistsList/todolists.reducer.ts:15-32 | the `find` and assign of the change reducers leaves ChangeFirst of the old sequence |
| Todolists.TodolistStore.ChangeTodolistTitle | src/features/TodolistsList/todolists.reducer.ts:15-20 | only the title of the first record with the id changes |
| Todolists.TodolistStore.ChangeTodolistFilter | src/features/TodolistsList/todolists.reducer.ts:21-26 | only the filter of the first record with the id changes |
| Todolists.TodolistStore.ChangeTodolistEntityStatus | src/features/TodolistsList/todolists.reducer.ts:27-32 | only the entity status of the first record with the id changes |
| Todolists.TodolistStore.SetTodolists | src/features/TodolistsList/todolists.reducer.ts:33-34 | the sequence is replaced by ToDomain of the server list |
| Todolists.TodolistStore.ClearTasksAndTodolists | src/features/TodolistsList/todolists.reducer.ts:39-41 | the sequence becomes empty |
| Todolists.TodolistStore.RemoveTodolistFulfilled | src/features/TodolistsList/todolists.reducer.ts:42-45 | the first record with the id is spliced out; an absent id changes nothing |
| Todolists.TodolistStore.AddTodolistFulfilled | src/features/TodolistsList/todolists.reducer.ts:46-49 | the server item with default client fields goes first; the rest is the old sequence |
| App.AddTodolistKeepsConsistent | src/features/TodolistsList/tasks.reducer.ts:50-52 | with a fresh id, adding the todolist in front and seeding its empty task list keeps ids unique and each id keyed |
| App.RemoveTodolistKeepsConsistent | src/features/TodolistsList/tasks.reducer.ts:53-55 | splicing out the todolist and deleting its key keeps the invariant |
| App.SetTodolistsConsistent | src/features/TodolistsList/tasks.reducer.ts:56-60 | with distinct server ids, setTodolists in both slices yields a consistent pair, whatever the old task map |
| App.SetTodolistsKeepsStaleKeys | src/features/TodolistsList/tasks.reducer.ts:56-60 | a key the server list does not name survives setTodolists with no todolist left for it |
| App.ClearIsConsistent | src/features/TodolistsList/tasks.reducer.ts:61-63 | the two cleared slices are consistent |
| App.ChangeKeepsConsistent | src/features/TodolistsList/todolists.reducer.ts:15-32 | a local change keeps the invariant |
| App.TaskKeysGrowKeepsConsistent | src/features/TodolistsList/tasks.reducer.ts:27-46 | task cases that only overwrite or add keys keep the invariant |
| App.Store.constructor | src/features/TodolistsList/todolists.reducer.ts:9 | both slices start empty, which is consistent |
| App.Store.FetchTasks | src/features/TodolistsList/tasks.reducer.ts:71-83 | on a return the list's entry is the server's items, on a throw nothing changes; the invariant holds |
| App.Store.AddTask | src/features/TodolistsList/tasks.reducer.ts:92-113 | with result code 0 the created task goes first in its own list; otherwise nothing changes |
| App.Store.RemoveTask | src/features/TodolistsList/tasks.reducer.ts:115-128 | once deleteTask returns, the first task with the id is spliced out; on a throw nothing changes |
| App.Store.UpdateTask | src/features/TodolistsList/tasks.reducer.ts:144-179 | returns the request sent, None when the task is not found locally; with result code 0 the local task gets the model overlaid, otherwise nothing changes |
| App.Store.AddTodolist | src/features/TodolistsList/todolists.reducer.ts:46-49 | the item goes first with default client fields and gets an empty task list; the invariant holds for a fresh id |
| App.Store.RemoveTodolist | src/features/TodolistsList/todolists.reducer.ts:74-83 | marks the list "loading" first; on a return, splices it out and deletes its key; on a throw, it stays "loading" and the task map is unchanged |
| App.Store.SetTodolists | src/features/TodolistsList/todolists.reducer.ts:33-34 | both slices take setTodolists; the invariant holds for distinct server ids |
| App.Store.ClearTasksAndTodolists | src/features/TodolistsList/todolists.reducer.ts:39-41 | both slices become empty together |
| App.Store.ChangeTodolist | src/features/TodolistsList/todolists.reducer.ts:15-32 | a local change reducer, keeping the invariant |

## Left out

- Network calls are not modelled. Each awaited `todolistsAPI` call becomes a parameter: an `ApiCall` that returns a value or throws.
- The global status tracker is left out: `setAppStatus`, `handleServerAppError` and `handleServerNetworkError` are defined in modules outside this model.
- Redux Toolkit and Immer are left out: `createSlice`, `createAppAsyncThunk`, action dispatch and draft proxies. Each reducer case is a method that updates the slice's state directly.
- Concurrency is left out. Each thunk runs in one step with its call's outcome given, so interleaved thunks and a late completion after a list is deleted are not modelled.
- `console.log`, `console.warn` and `debugger`, including the empty `fetchTasksTC.rejected` case, have no effect on the state.
- The commented-out legacy thunks are dead code.
- `changeTodolistTitleTC` is left out. It only dispatches `changeTodolistTitle` after `updateTodolist` resolves.
- The `addTodolist` thunk's failure handling is left out: it swallows errors and never checks the result code. Only its `fulfilled` case is modelled, as `App.Store.AddTodolist` with the server item as argument.
- The `fetchTodolists` thunk is left out because no reducer handles its `fulfilled` action, so it changes neither slice.
- A field present in a domain model with the value `undefined` is left out. The spread would copy that `undefined`; `Option` models a field as either present or absent.
- Server responses with result code 0 but no item are not modelled. `Response` always carries its data.
- TaskType, TodolistType and the status and priority enums are defined in modules outside this model. They have only the fields and values the reducers use, and dates are opaque strings.
- App.Store.AddTodolist: requires that the server's new id is not in use yet; the source assumes this of the server and does not check it.
- App.Store.SetTodolists: requires distinct ids in the server list; the source assumes this of the server and does not check it.
