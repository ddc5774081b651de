/**
 The todolist store: an ordered sequence of todolist records, each with its
 client-only filter and entity status, and the cases of its reducer.
 */
module Todolists {
  import opened Domain
  import Lists

  /** The key `find` and `findIndex` compare: the todolist's id. */
  function ListId(t: TodolistDomain): string
  {
    t.id
  }

  /** `{...tl, filter: "all", entityStatus: "idle"}`: the server record with
      the default client fields. */
  function NewDomainList(tl: Todolist): (r: TodolistDomain)
    ensures r.Server() == tl
    ensures r.filter == FilterAll && r.entityStatus == Idle
  {
    TodolistDomain(tl.id, tl.title, tl.addedDate, tl.order, FilterAll, Idle)
  }

  /** setTodolists: `todolists.map(...)` with the default client fields; same
      length, same order, every server field copied. */
  function ToDomain(todolists: seq<Todolist>): (r: seq<TodolistDomain>)
    ensures |r| == |todolists|
    ensures forall i :: 0 <= i < |r| ==>
              r[i].Server() == todolists[i] && r[i].filter == FilterAll && r[i].entityStatus == Idle
  {
    seq(|todolists|, i requires 0 <= i < |todolists| => NewDomainList(todolists[i]))
  }

  /** The three local change reducers, each naming the one field it sets. */
  datatype Change =
    | SetTitle(title: string)
    | SetFilter(filter: FilterValue)
    | SetEntityStatus(entityStatus: RequestStatus)

  /** The record with the one field of the change assigned; all else kept. */
  function ChangeField(t: TodolistDomain, c: Change): (r: TodolistDomain)
    ensures r.Server() == t.Server().(title := r.title)
    ensures r.title == (if c.SetTitle? then c.title else t.title)
    ensures r.filter == (if c.SetFilter? then c.filter else t.filter)
    ensures r.entityStatus == (if c.SetEntityStatus? then c.entityStatus else t.entityStatus)
  {
    match c
    case SetTitle(title) => t.(title := title)
    case SetFilter(filter) => t.(filter := filter)
    case SetEntityStatus(status) => t.(entityStatus := status)
  }

  /** `const todo = state.find(...); if (todo) todo.<field> = ...`: only the
      first record with the id is changed, and only in the change's field;
      the length, the order and every other record stay, an absent id is a
      no-op. */
  function ChangeFirst(s: seq<TodolistDomain>, id: string, c: Change): (r: seq<TodolistDomain>)
    ensures |r| == |s|
    ensures forall j :: 0 <= j < |s| && j != Lists.FirstIndex(s, ListId, id) ==> r[j] == s[j]
    ensures forall j :: 0 <= j < |s| ==> r[j].id == s[j].id
    ensures Lists.FirstIndex(s, ListId, id) >= 0 ==>
              r[Lists.FirstIndex(s, ListId, id)] == ChangeField(s[Lists.FirstIndex(s, ListId, id)], c)
  {
    var i := Lists.FirstIndex(s, ListId, id);
    if i == -1 then s else s[i := ChangeField(s[i], c)]
  }

  /** A local change keeps the ids in place, so the todolist that a later
      removal finds is the same one: marking a list before removing it and
      removing it directly leave the same sequence. */
  lemma RemoveAfterChange(s: seq<TodolistDomain>, id: string, c: Change)
    ensures Lists.FirstIndex(ChangeFirst(s, id, c), ListId, id) == Lists.FirstIndex(s, ListId, id)
    ensures Lists.RemoveFirst(ChangeFirst(s, id, c), ListId, id) == Lists.RemoveFirst(s, ListId, id)
  {
    var changed := ChangeFirst(s, id, c);
    var i := Lists.FirstIndex(s, ListId, id);
    Lists.FirstIndexOfSameKeys(changed, s, ListId, id);
    if i >= 0 {
      var a := Lists.RemoveFirst(changed, ListId, id);
      var b := Lists.RemoveFirst(s, ListId, id);
      assert |a| == |b|;
      forall j | 0 <= j < |a|
        ensures a[j] == b[j]
      {
        if j < i {
          assert a[j] == changed[j] == s[j];
        } else {
          assert a[j] == changed[j + 1] == s[j + 1];
        }
      }
    }
  }

  /** removeTodolist: fulfilled with its own id whenever deleteTodolist
      returns, whatever the result code; rejected only when it throws. */
  function RemoveTodolistThunk(id: string, call: ApiCall<Response<()>>): (r: Settled<string>)
    ensures r.Fulfilled? <==> call.Returned?
    ensures r.Fulfilled? ==> r.payload == id
  {
    if call.Returned? then Fulfilled(id) else Rejected
  }

  /** The todolist slice's state, updated in place by its reducer cases. */
  class TodolistStore {
    var state: seq<TodolistDomain>

    constructor ()
      ensures state == []
    {
      state := [];
    }

    /** The body shared by the three change reducers: `find`, then assign. */
    method ApplyChange(id: string, c: Change)
      modifies this
      ensures state == ChangeFirst(old(state), id, c)
    {
      var index := Lists.FindIndex(state, ListId, id);
      if index != -1 {
        state := state[index := ChangeField(state[index], c)];
      }
    }

    /** changeTodolistTitle. */
    method ChangeTodolistTitle(id: string, title: string)
      modifies this
      ensures state == ChangeFirst(old(state), id, SetTitle(title))
    {
      ApplyChange(id, SetTitle(title));
    }

    /** changeTodolistFilter. */
    method ChangeTodolistFilter(id: string, filter: FilterValue)
      modifies this
      ensures state == ChangeFirst(old(state), id, SetFilter(filter))
    {
      ApplyChange(id, SetFilter(filter));
    }

    /** changeTodolistEntityStatus. */
    method ChangeTodolistEntityStatus(id: string, entityStatus: RequestStatus)
      modifies this
      ensures state == ChangeFirst(old(state), id, SetEntityStatus(entityStatus))
    {
      ApplyChange(id, SetEntityStatus(entityStatus));
    }

    /** setTodolists: the state is replaced by the mapped server list. */
    method SetTodolists(todolists: seq<Todolist>)
      modifies this
      ensures state == ToDomain(todolists)
    {
      state := ToDomain(todolists);
    }

    /** clearTasksAndTodolists: the empty sequence. */
    method ClearTasksAndTodolists()
      modifies this
      ensures state == []
    {
      state := [];
    }

    /** removeTodolist.fulfilled: `findIndex`, then `splice` when found. */
    method RemoveTodolistFulfilled(id: string)
      modifies this
      ensures state == Lists.RemoveFirst(old(state), ListId, id)
    {
      var index := Lists.FindIndex(state, ListId, id);
      if index != -1 {
        state := state[..index] + state[index + 1..];
      }
    }

    /** addTodolist.fulfilled: `unshift` of the server item with defaults. */
    method AddTodolistFulfilled(todolist: Todolist)
      modifies this
      ensures state == [NewDomainList(todolist)] + old(state)
    {
      state := [NewDomainList(todolist)] + state;
    }
  }
}
