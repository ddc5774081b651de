/**
 The records the two stores hold and the shapes of the remote API's answers.
 TaskType, TodolistType, TaskStatuses, TaskPriorities and RequestStatusType
 come from modules outside this model; they are given here with the fields and
 values the reducers use, dates as opaque strings.
 */
module Domain {

  datatype Option<T> = None | Some(value: T)
  {
    /** The value when present, otherwise `default`. */
    function GetOr(default: T): T
    {
      if Some? then value else default
    }
  }

  datatype TaskStatus = New | InProgress | Completed | Draft

  datatype TaskPriority = Low | Middle | High | Urgent | Later

  /** A task as the server returns it. */
  datatype Task = Task(
    id: string,
    todoListId: string,
    title: string,
    description: string,
    status: TaskStatus,
    priority: TaskPriority,
    startDate: string,
    deadline: string)

  /** A todolist as the server returns it. */
  datatype Todolist = Todolist(id: string, title: string, addedDate: string, order: int)

  /** FilterValuesType: "all" | "active" | "completed". */
  datatype FilterValue = FilterAll | FilterActive | FilterCompleted

  /** RequestStatusType: "idle" | "loading" | "succeeded" | "failed". */
  datatype RequestStatus = Idle | Loading | Succeeded | Failed

  /** TodolistDomainType: the server's record plus the two client-only fields. */
  datatype TodolistDomain = TodolistDomain(
    id: string,
    title: string,
    addedDate: string,
    order: int,
    filter: FilterValue,
    entityStatus: RequestStatus)
  {
    /** The server fields of the record. */
    function Server(): Todolist
    {
      Todolist(id, title, addedDate, order)
    }
  }

  /** UpdateDomainTaskModelType: every field optional. */
  datatype UpdateDomainTaskModel = UpdateDomainTaskModel(
    title: Option<string>,
    description: Option<string>,
    status: Option<TaskStatus>,
    priority: Option<TaskPriority>,
    startDate: Option<string>,
    deadline: Option<string>)

  /** UpdateTaskModelType: the full record the update endpoint requires. */
  datatype UpdateTaskModel = UpdateTaskModel(
    deadline: string,
    description: string,
    priority: TaskPriority,
    startDate: string,
    title: string,
    status: TaskStatus)

  /** The ResultCode enum: the business-level status in a server response. */
  const SuccessCode: int := 0
  const ErrorCode: int := 1
  const CatchCode: int := 10

  /** A server response carrying a result code and its data. */
  datatype Response<D> = Response(resultCode: int, data: D)

  /** How an awaited API call ends: it returns a value or it throws. */
  datatype ApiCall<T> = Returned(value: T) | Threw

  /** How a thunk settles: `fulfilled` with a payload, or `rejectWithValue(null)`. */
  datatype Settled<P> = Fulfilled(payload: P) | Rejected

  /** The success test of the thunks that check the result code. */
  predicate IsSuccess<D>(call: ApiCall<Response<D>>)
  {
    call.Returned? && call.value.resultCode == SuccessCode
  }
}
