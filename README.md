# Task store of a minimal REST task-list service

This project models the core of a small Go HTTP service: an in-memory map
from task id to `Task` record, seeded with two tasks at process start, and
four handlers that list the map, fetch one task, create or overwrite a task,
and delete a task. Each handler looks up, inserts or deletes one key, and
picks a status code from whether the key is present or the map is empty.

- `wrappers.dfy`, module `Wrappers`: the `Result` type that stands for
  "request body read and decoded" or "the reader or decoder failed with this
  error text".
- `tasks.dfy`, module `Tasks`: the `Task` record, the status codes and error
  texts, the seeded map, one pure function per handler giving its response
  and the map it leaves (`AllTasksResponse`, `TaskResponse`, `PostOutcome`,
  `DeleteOutcome`), and the class `Store`. `Store` holds the map in the field
  `tasks`. Its four methods update that field in place as the Go handlers
  update the global map, and each method is proved against its function.
- `sessions.dfy`, module `Sessions`: the four routes as a `Request` datatype,
  the dispatch `Handle`, and `Run`, which serves a sequence of requests one
  after the other against the same map. Lemmas about request sequences
  follow: post then get, delete then get, delete twice, read-only runs,
  draining the map by deletes and then listing, and the seeded walkthrough.

The status codes are the ones the code returns: POST answers 200, although
the comment above `postTasks` (precode.go:94) asks for 201 Created. Listing
an empty map answers 500. A lookup miss answers 400.

## Model

| member | source | states |
|---|---|---|
| Tasks.Seed | precode.go:20-42 | the initial map has exactly the keys "1" and "2", holds the two literal seed records, and every key equals its record's id |
| Tasks.AllTasksResponse | precode.go:65-86 | list answers 500 with "There is not a single task" exactly when the map is empty, otherwise 200 with a payload whose key set is the map's domain and whose entries are the map's entries |
| Tasks.TaskResponse | precode.go:131-153 | get answers 200 exactly when the id is a key, then with exactly the stored record (whose id is the requested id when keys match ids); on a miss it answers 400 "Task not found" |
| Tasks.PostOutcome | precode.go:97-119 | a read or decode failure answers 400 with the error text and leaves the map unchanged; a decoded task answers 200 (not 201) with no body, its id is added to the domain, it replaces any earlier record whole, every other entry is unchanged, and "keys match ids" is preserved |
| Tasks.DeleteOutcome | precode.go:165-190 | delete answers 200 exactly when the id is a key; a miss answers 400 "Task not found" and leaves the map unchanged; a hit removes only that key, shrinks the map by one, keeps every other entry, and preserves "keys match ids" |
| Tasks.Store.constructor | precode.go:20-42 | a fresh store holds the seeded map and satisfies "keys match ids" |
| Tasks.Store.GetAllTasks | precode.go:65-86 | the list handler on the object answers as AllTasksResponse of its current map, with the whole map as payload on 200, and changes nothing |
| Tasks.Store.GetTask | precode.go:131-153 | the get handler on the object answers as TaskResponse of its current map: 200 exactly when the id is a key, with the stored record, and changes nothing |
| Tasks.Store.PostTask | precode.go:97-119 | the post handler updates the object's map in place exactly as PostOutcome says: on success the new map is the old one with the task's id set to the task; "keys match ids" is kept |
| Tasks.Store.DeleteTask | precode.go:165-190 | the delete handler updates the object's map in place exactly as DeleteOutcome says: on a hit the new map is the old one without the id; "keys match ids" is kept |
| Sessions.Handle | precode.go:197-203 | each of the four routes is served by its handler; the two GET routes never change the map, delete never adds keys, a failed post changes nothing, and every route preserves "keys match ids" |
| Sessions.Run | precode.go:197-205 | serving a sequence of requests yields one response per request, and "keys match ids" holds at the end of every run that starts from a map where it holds |
| Sessions.ReadOnlyRun | precode.go:65-153 | a run of GET requests only leaves the map as it was and answers every request from that same map |
| Sessions.DeleteEachDrains | precode.go:165-177 | deleting, one request at a time, a list of ids that covers every key leaves the map empty, whatever duplicates or absent ids the list holds |
| Sessions.DrainThenList | precode.go:69-73 | after deleting every key, a list request answers 500 "There is not a single task" |
| Sessions.PostThenGet | precode.go:113-137 | posting a task and then getting its id answers 200 and then 200 with exactly the posted task, whatever record that id held before (overwrite without field merge) |
| Sessions.DeleteThenGet | precode.go:135-177 | deleting a present id and then getting it answers 200 and then 400 "Task not found" |
| Sessions.DeleteTwice | precode.go:169-177 | a second delete of the same id answers 400 "Task not found" and leaves the map as the first delete left it |
| Sessions.SeededWalkthrough | precode.go:20-42 | from the seeded map, posting task "3", getting it, deleting it and getting it again answers 200, 200 with the task, 200, 400, and ends with the seeded map |

## Left out

- HTTP plumbing: the chi router, path-parameter extraction, `http.ListenAndServe` on port 8080 and the start-up error print (precode.go:192-209). `Handle` keeps only the route-to-handler table.
- Reading the request body and `json.Unmarshal` (precode.go:101-110) are foreign library calls. The model takes their outcome as a `Result<Task, string>` input, and both failures become `Failure` with the error text.
- `json.Marshal` of the map or of one `Task`, and its error branches (precode.go:75-78, 142-145). Marshalling these values does not fail, so the model returns the logical payload (the map or the record) in place of the JSON bytes.
- Response headers and body writing. Only the status code and the logical payload are modelled. Also left out: `Content-Type` and the newline `http.Error` appends to an error text.
- Concurrency: the Go handlers run on separate goroutines over the unsynchronised global map. The model serves requests one at a time, so it cannot express that data race.
- The commented-out alternatives in the source (the 204 status, the empty-response struct, echoing the body) are not live behaviour.
- Go's `nil` versus empty `applications` slice is not distinguished; both are the empty sequence.
