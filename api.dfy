/** The three request handlers: each checks the parsed path identifier,
    runs one store operation and ends in exactly one HTTP outcome. */
module Api {
  import opened Wrappers
  import opened Tasks
  import opened Store

  const StatusOK := 200
  const StatusBadRequest := 400
  const StatusNotFound := 404

  const InvalidTaskId := "Invalid task ID"
  const TaskNotFound := "Task not found"

  /** What a handler sends back as JSON: one task, the list of tasks, or an
      error object. */
  datatype Body = TaskJson(task: Task) | TaskListJson(tasks: seq<Task>) | ErrorJson(error: string)

  datatype Response = Response(status: int, body: Body)

  /** The outcome of a single-task handler, given the parsed path identifier
      (None when it was not an integer) and what the scan reported. A
      malformed identifier wins over everything else. */
  function Reply(parsedId: Option<int>, found: Option<Task>): (r: Response)
    ensures r.status == StatusOK || r.status == StatusBadRequest || r.status == StatusNotFound
    ensures r.status == StatusBadRequest <==> parsedId.None?
    ensures r.status == StatusOK <==> parsedId.Some? && found.Some?
    ensures r.status == StatusNotFound <==> parsedId.Some? && found.None?
    ensures r.status == StatusOK ==> r.body == TaskJson(found.value)
    ensures r.status == StatusBadRequest ==> r.body == ErrorJson(InvalidTaskId)
    ensures r.status == StatusNotFound ==> r.body == ErrorJson(TaskNotFound)
  {
    match parsedId
    case None => Response(StatusBadRequest, ErrorJson(InvalidTaskId))
    case Some(_) =>
      match found
      case Some(t) => Response(StatusOK, TaskJson(t))
      case None => Response(StatusNotFound, ErrorJson(TaskNotFound))
  }

  /** Lists every task: always 200 with the stored sequence, in order. */
  method GetTasks(store: TaskStore) returns (resp: Response)
    ensures resp == Response(StatusOK, TaskListJson(store.tasks))
  {
    var all := store.List();
    resp := Response(StatusOK, TaskListJson(all));
  }

  /** Fetches one task: 400 on a malformed identifier (no scan is made),
      otherwise 200 with the first task carrying that identifier, or 404. The
      store is not changed. */
  method GetTask(store: TaskStore, parsedId: Option<int>) returns (resp: Response)
    ensures resp == Reply(parsedId, if parsedId.Some? then Lookup(store.tasks, parsedId.value) else None)
    ensures resp.status == StatusOK <==> parsedId.Some? && HasId(store.tasks, parsedId.value)
    ensures resp.status == StatusOK ==> resp.body.TaskJson? && resp.body.task in store.tasks && resp.body.task.id == parsedId.value
  {
    if parsedId.None? {
      return Reply(parsedId, None);
    }
    var found := store.Get(parsedId.value);
    resp := Reply(parsedId, found);
  }

  /** Marks one task complete: 400 on a malformed identifier and 404 on a
      miss, both leaving the store as it was; otherwise the first task with
      that identifier gets its flag set and 200 carries the updated task. */
  method CompleteTask(store: TaskStore, parsedId: Option<int>) returns (resp: Response)
    modifies store
    ensures parsedId.None? ==> store.tasks == old(store.tasks)
    ensures parsedId.Some? ==> store.tasks == MarkCompleted(old(store.tasks), parsedId.value)
    ensures resp == Reply(parsedId, if parsedId.Some? then Lookup(store.tasks, parsedId.value) else None)
    ensures resp.status != StatusOK ==> store.tasks == old(store.tasks)
  {
    if parsedId.None? {
      return Reply(parsedId, None);
    }
    var found := store.Complete(parsedId.value);
    resp := Reply(parsedId, found);
  }

  /** On the same store state and path identifier, completing ends in the
      same status as fetching: both 400, both 404, or both 200, and a 200
      from completing carries the fetched task with its flag set. */
  lemma CompleteStatusMatchesGet(s: seq<Task>, parsedId: Option<int>)
    ensures var get := Reply(parsedId, if parsedId.Some? then Lookup(s, parsedId.value) else None);
            var done := Reply(parsedId, if parsedId.Some? then Lookup(MarkCompleted(s, parsedId.value), parsedId.value) else None);
            done.status == get.status &&
            (get.status == StatusOK ==> done.body == TaskJson(get.body.task.(completed := true)))
  {
    if parsedId.Some? {
      LookupAfterComplete(s, parsedId.value);
    }
  }

  /** The request sequence of the repository's handler tests, run against a
      freshly seeded store, followed by a fetch that sees the completion. */
  method SeededStoreScenario()
  {
    var store := new TaskStore();
    SeedState();

    var list := GetTasks(store);
    assert list.status == StatusOK;
    assert |list.body.tasks| == 3 && list.body.tasks[0].title == "Learn Go basics";

    var hit := GetTask(store, Some(1));
    assert hit == Response(StatusOK, TaskJson(Task(1, "Learn Go basics", false)));

    var miss := GetTask(store, Some(999));
    assert !HasId(store.tasks, 999);
    assert miss == Response(StatusNotFound, ErrorJson(TaskNotFound));

    var bad := GetTask(store, None);
    assert bad.status == StatusBadRequest;

    var done := CompleteTask(store, Some(1));
    assert done == Response(StatusOK, TaskJson(Task(1, "Learn Go basics", true)));

    var doneMiss := CompleteTask(store, Some(999));
    assert doneMiss.status == StatusNotFound;

    var doneBad := CompleteTask(store, None);
    assert doneBad.status == StatusBadRequest;

    var after := GetTask(store, Some(1));
    assert after == Response(StatusOK, TaskJson(Task(1, "Learn Go basics", true)));
  }
}
