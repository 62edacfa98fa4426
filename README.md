# Task store of the Go "hello world" task manager

This project models the in-memory task store behind the task manager's HTTP
API (`main.go`). A store holds an ordered sequence of tasks
`Task(id, title, completed)`, seeded with three tasks. Three handlers work on it:

- list all tasks;
- fetch one task by identifier;
- mark one task complete.

Each single-task handler ends in one of three outcomes:

- 400 when the path identifier is not an integer;
- 404 when no task has that identifier;
- 200 with the task otherwise.

Layout:

- `wrappers.dfy`: module `Wrappers`, the `Option` type. It is used for the
  scan result (found or not) and for the parsed path identifier (`None` means
  the identifier did not parse).
- `tasks.dfy`: module `Tasks`. It holds the `Task` value, the seed, and the
  reference functions `IndexOf` (the first position holding an identifier),
  `Lookup` and `MarkCompleted`. It also holds the lemmas about them:
  uniqueness, idempotence, commutation, and that nothing else changes.
- `store.dfy`: module `Store`, the class `TaskStore`. Its field `tasks` is a
  `seq<Task>`. `Get` and `Complete` are loops that mirror the Go range scans
  with early return. `Complete` updates the found element in place. Each is
  proved against the reference functions.
- `api.dfy`: module `Api`. It holds the handlers, which take the store as a
  parameter instead of reading a global. `Reply` maps the parsed identifier
  and the scan result to a status code and a body. `SeededStoreScenario`
  replays the request sequence of `main_test.go` on a freshly built store and
  proves each expected outcome.

In Go, each handler does its own scan inline. The model moves the two scans
into store methods (`Get`, `Complete`), and the handlers call them only after
the identifier parsed. So, as in the Go code, no scan happens on a 400.
Go's scans return the FIRST task with a matching identifier. The reference
functions say exactly that. `Tasks.LookupUnique` shows that, because
identifiers are distinct, the first match is also the only one.

## Model

| member | source | states |
|---|---|---|
| Tasks.SeedState | main.go:35-43 | the seed is exactly three tasks with ids 1, 2, 3 in that order, the three titles, all not completed, ids pairwise distinct |
| Tasks.IndexOf | main.go:104-110 | the scan's stopping point: a position holding the id with no earlier position holding it, or None exactly when no task has the id |
| Tasks.Lookup | main.go:77-83 | the task a lookup reports is a stored element with the requested id and no earlier element has that id; it is None exactly when the id is absent |
| Tasks.LookupUnique | main.go:77-81 | under distinct ids, a lookup yields t exactly when t is stored and carries the id (both directions) |
| Tasks.MarkCompleted | main.go:104-111 | completing keeps length, every id and every title; the matched element becomes completed; every other element is identical; an absent id changes nothing |
| Tasks.IndexOfSameIds | main.go:104-107 | sequences with the same ids at the same positions stop every scan at the same position |
| Tasks.CompleteKeepsIds | main.go:106 | completing preserves the unique-id invariant (both directions) and where any later scan stops |
| Tasks.LookupAfterComplete | main.go:104-108 | after completing, a lookup of the same id reports the previously found task with completed set and id and title kept; an absent id stays absent |
| Tasks.LookupOtherAfterComplete | main.go:104-107 | completing one id does not change what a lookup of any other id reports |
| Tasks.CompleteIdempotent | main.go:106 | completing the same id twice gives the same sequence and the same reported task as completing it once |
| Tasks.CompleteCommutes | main.go:104-110 | completing two ids one after the other gives the same sequence in either order, so neither completion is lost |
| Store.TaskStore.constructor | main.go:35-43 | a new store holds exactly the seed sequence and satisfies the unique-id invariant |
| Store.TaskStore.List | main.go:56 | the listing is the whole stored sequence, unchanged and in order |
| Store.TaskStore.Get | main.go:77-83 | the loop returns the lookup of the id (first match, or None when there is none) and changes nothing |
| Store.TaskStore.Complete | main.go:104-111 | the new sequence is the old one with the first match completed; the result is that updated element exactly when the id was present; an absent id changes nothing; the invariant holds after exactly when it held before |
| Api.Reply | main.go:71-83 | a single-task outcome is always 200, 400 or 404; 400 exactly on a malformed id, with body "Invalid task ID"; 200 exactly on a hit, with the task; 404 exactly on a miss, with body "Task not found" |
| Api.GetTasks | main.go:53-57 | listing always answers 200 with the stored sequence |
| Api.GetTask | main.go:67-84 | the fetch answers the outcome for the lookup; 200 exactly when the id parsed and is present, carrying a stored task with that id; the store is unchanged |
| Api.CompleteTask | main.go:94-112 | a malformed id answers 400 and mutates nothing; otherwise the store becomes the completed sequence, and the answer carries the updated task or is 404; every non-200 answer leaves the store unchanged |
| Api.CompleteStatusMatchesGet | main.go:71-83 | on the same state and path id, completing ends in the same status as fetching, and its 200 body is the fetched task with completed set |

## Left out

- Locking: the read/write mutex embedded in the store is not modelled (main.go:30, 54-55, 68-69, 95-96). Its only purpose is mutual exclusion between concurrent requests. The model is sequential and makes no claim about interleavings. `Tasks.CompleteCommutes` is a statement about two completions run one after the other.
- Integer parsing: `strconv.Atoi` is a library call. Its result is a parameter `Option<int>`, with `None` for a parse error. The model does not say which strings parse or what their range is.
- Integer width: identifiers are unbounded `int`s. Go's `int` is 64 bits wide, but identifiers are only compared for equality, and every parsed identifier already fits.
- HTTP and JSON: gin routing, `c.Param`, and the JSON encoding of bodies are not modelled. A response is a status code and a `Body` value: a task, the task list, or an error object holding its message.
- Startup glue: Swagger annotations and routes, `main` with its route table and server start, and the process-wide `store` variable are not modelled (main.go:45, 114-132). The store is an object built explicitly and passed to each handler.
