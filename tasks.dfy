/**
 * The task store of the homework REST service: the Task record, the
 * process-global map from task id to Task seeded with two records, and the
 * decisions the four HTTP handlers make over that map (which status code,
 * which payload, how the map changes).
 *
 * Each handler is specified twice: once as a pure function of the current
 * map (what the handler answers and what the map becomes), and once as a
 * method of the class Store, whose field `tasks` is the map the Go program
 * updates in place.
 */
module Tasks {
  import opened Wrappers

  /** One task record; `applications` keeps its order. */
  datatype Task = Task(id: string, description: string, note: string, applications: seq<string>)

  /** The HTTP status codes the handlers use. */
  const StatusOK: int := 200
  const StatusBadRequest: int := 400
  const StatusInternalServerError: int := 500

  /** Plain-text error bodies the handlers pass to http.Error. */
  const NoTasksMessage: string := "There is not a single task"
  const TaskNotFoundMessage: string := "Task not found"

  /** The logical body of a response. */
  datatype Payload =
    | Empty                              // status written, no body
    | AllTasks(tasks: map<string, Task>) // the whole map, serialised as one JSON object
    | OneTask(task: Task)                // one record, serialised as JSON
    | Text(message: string)              // plain-text error body

  datatype Response = Response(status: int, payload: Payload)

  /** What a mutating handler answers, and the map it leaves behind. */
  datatype Outcome = Outcome(response: Response, store: map<string, Task>)

  /** The convention the Go program keeps: every key is its record's own id. */
  ghost predicate KeysMatchIds(store: map<string, Task>) {
    forall k :: k in store ==> store[k].id == k
  }

  const FirstSeed: Task := Task(
    "1",
    "Сделать финальное задание темы REST API",
    "Если сегодня сделаю, то завтра будет свободный день. Ура!",
    ["VS Code", "Terminal", "git"])

  const SecondSeed: Task := Task(
    "2",
    "Протестировать финальное задание с помощью Postmen",
    "Лучше это делать в процессе разработки, каждый раз, когда запускаешь сервер и проверяешь хендлер",
    ["VS Code", "Terminal", "git", "Postman"])

  /** The map the process starts with. */
  function Seed(): (m: map<string, Task>)
    ensures m.Keys == {"1", "2"}
    ensures m["1"] == FirstSeed && m["2"] == SecondSeed
    ensures KeysMatchIds(m)
  {
    map["1" := FirstSeed, "2" := SecondSeed]
  }

  /** GET /tasks: 500 with a fixed message on an empty map, otherwise 200 and the whole map. */
  function AllTasksResponse(store: map<string, Task>): (r: Response)
    ensures r.status == StatusInternalServerError <==> |store| == 0
    ensures r.status == StatusOK <==> |store| != 0
    ensures |store| == 0 ==> r.payload == Text(NoTasksMessage)
    ensures |store| != 0 ==> r.payload.AllTasks? && r.payload.tasks.Keys == store.Keys
    ensures |store| != 0 ==> forall k :: k in store ==> r.payload.tasks[k] == store[k]
  {
    if |store| == 0 then
      Response(StatusInternalServerError, Text(NoTasksMessage))
    else
      Response(StatusOK, AllTasks(store))
  }

  /** GET /tasks/{id}: 400 "Task not found" on a miss, otherwise 200 and the stored record. */
  function TaskResponse(store: map<string, Task>, id: string): (r: Response)
    ensures r.status == StatusOK <==> id in store
    ensures id !in store ==> r == Response(StatusBadRequest, Text(TaskNotFoundMessage))
    ensures id in store ==> r.payload == OneTask(store[id])
    ensures KeysMatchIds(store) && r.status == StatusOK ==> r.payload.task.id == id
  {
    if id in store then
      Response(StatusOK, OneTask(store[id]))
    else
      Response(StatusBadRequest, Text(TaskNotFoundMessage))
  }

  /**
   * POST /tasks, given the result of reading and decoding the body: on a
   * failure 400 with the decoder's error text and no change; otherwise the
   * record is stored under its own id, replacing any earlier record whole,
   * and the answer is 200 with no body.
   */
  function PostOutcome(store: map<string, Task>, decoded: Result<Task, string>): (o: Outcome)
    ensures decoded.Failure? ==>
      o.response == Response(StatusBadRequest, Text(decoded.error)) && o.store == store
    ensures decoded.Success? ==> o.response == Response(StatusOK, Empty)
    ensures decoded.Success? ==>
      o.store.Keys == store.Keys + {decoded.value.id} && o.store[decoded.value.id] == decoded.value
    ensures decoded.Success? ==>
      forall k :: k in store && k != decoded.value.id ==> o.store[k] == store[k]
    ensures KeysMatchIds(store) ==> KeysMatchIds(o.store)
  {
    match decoded
    case Failure(err) => Outcome(Response(StatusBadRequest, Text(err)), store)
    case Success(task) => Outcome(Response(StatusOK, Empty), store[task.id := task])
  }

  /**
   * DELETE /tasks/{id}: 400 "Task not found" and no change on a miss;
   * otherwise the key is removed, every other entry is kept, and the answer
   * is 200 with no body.
   */
  function DeleteOutcome(store: map<string, Task>, id: string): (o: Outcome)
    ensures o.response.status == StatusOK <==> id in store
    ensures id !in store ==>
      o == Outcome(Response(StatusBadRequest, Text(TaskNotFoundMessage)), store)
    ensures id in store ==> o.response == Response(StatusOK, Empty)
    ensures id in store ==> o.store.Keys == store.Keys - {id} && |o.store| == |store| - 1
    ensures forall k :: k in o.store ==> k in store && o.store[k] == store[k]
    ensures KeysMatchIds(store) ==> KeysMatchIds(o.store)
  {
    if id !in store then
      Outcome(Response(StatusBadRequest, Text(TaskNotFoundMessage)), store)
    else
      var rest := store - {id};
      assert rest.Keys == store.Keys - {id};
      Outcome(Response(StatusOK, Empty), rest)
  }

  /** The process-global map and the four handlers that read and update it. */
  class Store {
    var tasks: map<string, Task>

    ghost predicate Valid()
      reads this
    {
      KeysMatchIds(tasks)
    }

    constructor ()
      ensures tasks == Seed()
      ensures Valid()
    {
      tasks := map["1" := FirstSeed, "2" := SecondSeed];
    }

    /** getAllTasks */
    method GetAllTasks() returns (r: Response)
      ensures r == AllTasksResponse(tasks)
      ensures r.status == StatusOK ==> r.payload == AllTasks(tasks)
    {
      if |tasks| == 0 {
        r := Response(StatusInternalServerError, Text(NoTasksMessage));
        return;
      }
      r := Response(StatusOK, AllTasks(tasks));
    }

    /** getTasks */
    method GetTask(id: string) returns (r: Response)
      ensures r == TaskResponse(tasks, id)
      ensures r.status == StatusOK <==> id in tasks
      ensures id in tasks ==> r.payload == OneTask(tasks[id])
    {
      if id !in tasks {
        r := Response(StatusBadRequest, Text(TaskNotFoundMessage));
        return;
      }
      var task := tasks[id];
      r := Response(StatusOK, OneTask(task));
    }

    /** postTasks, with the body already read and decoded */
    method PostTask(decoded: Result<Task, string>) returns (r: Response)
      modifies this
      ensures Outcome(r, tasks) == PostOutcome(old(tasks), decoded)
      ensures decoded.Success? ==> tasks == old(tasks)[decoded.value.id := decoded.value]
      ensures old(Valid()) ==> Valid()
    {
      if decoded.Failure? {
        r := Response(StatusBadRequest, Text(decoded.error));
        return;
      }
      var task := decoded.value;
      tasks := tasks[task.id := task];
      r := Response(StatusOK, Empty);
    }

    /** deleteTasks */
    method DeleteTask(id: string) returns (r: Response)
      modifies this
      ensures Outcome(r, tasks) == DeleteOutcome(old(tasks), id)
      ensures id in old(tasks) ==> tasks == old(tasks) - {id}
      ensures old(Valid()) ==> Valid()
    {
      if id !in tasks {
        r := Response(StatusBadRequest, Text(TaskNotFoundMessage));
        return;
      }
      tasks := tasks - {id};
      r := Response(StatusOK, Empty);
    }
  }

  /** A client of Store: what callers can conclude from the method contracts alone. */
  method SeededStoreWalkthrough() {
    var s := new Store();
    var third := Task("3", "x", "y", ["a"]);
    var r := s.PostTask(Success(third));
    assert r.status == StatusOK;
    r := s.GetTask("3");
    assert r == Response(StatusOK, OneTask(third));
    r := s.DeleteTask("3");
    assert r.status == StatusOK;
    r := s.GetTask("3");
    assert r == Response(StatusBadRequest, Text(TaskNotFoundMessage));
    r := s.DeleteTask("3");
    assert r.status == StatusBadRequest;
    assert s.Valid();
  }
}
