/**
 * The service's lifetime as a sequence of requests, each dispatched by its
 * method and path to one of the four handlers and served one after the other
 * against the same map.  The lemmas here relate handlers across requests:
 * a post is seen by a later get, a delete hides the record from a later get,
 * reads never change the map, and a map drained by deletes lists as 500.
 */
module Sessions {
  import opened Wrappers
  import opened Tasks

  /** The four routes: GET /tasks, GET /tasks/{id}, POST /tasks, DELETE /tasks/{id}. */
  datatype Request =
    | ListTasks
    | GetTask(id: string)
    | PostTask(body: Result<Task, string>)
    | DeleteTask(id: string)

  /** Every response of a run, in order, and the map at its end. */
  datatype Trace = Trace(responses: seq<Response>, final: map<string, Task>)

  /** Serves one request: the two GET routes only read, the other two update. */
  function Handle(store: map<string, Task>, req: Request): (o: Outcome)
    ensures (req.ListTasks? || req.GetTask?) ==> o.store == store
    ensures req.DeleteTask? ==> o.store.Keys <= store.Keys
    ensures req.PostTask? && req.body.Failure? ==> o.store == store
    ensures KeysMatchIds(store) ==> KeysMatchIds(o.store)
  {
    match req
    case ListTasks => Outcome(AllTasksResponse(store), store)
    case GetTask(id) => Outcome(TaskResponse(store, id), store)
    case PostTask(body) => PostOutcome(store, body)
    case DeleteTask(id) => DeleteOutcome(store, id)
  }

  /** Serves the requests in order, each against the map the previous one left. */
  function Run(store: map<string, Task>, reqs: seq<Request>): (t: Trace)
    ensures |t.responses| == |reqs|
    ensures KeysMatchIds(store) ==> KeysMatchIds(t.final)
    decreases |reqs|
  {
    if reqs == [] then
      Trace([], store)
    else
      var o := Handle(store, reqs[0]);
      var rest := Run(o.store, reqs[1..]);
      Trace([o.response] + rest.responses, rest.final)
  }

  /** One DELETE /tasks/{id} per id, in order. */
  function DeleteEach(ids: seq<string>): (reqs: seq<Request>)
    ensures |reqs| == |ids|
    ensures forall i :: 0 <= i < |ids| ==> reqs[i] == DeleteTask(ids[i])
  {
    seq(|ids|, i requires 0 <= i < |ids| => DeleteTask(ids[i]))
  }

  /** Running two batches back to back is running their concatenation. */
  lemma {:induction false} RunAppend(store: map<string, Task>, first: seq<Request>, second: seq<Request>)
    ensures var mid := Run(store, first);
            var last := Run(mid.final, second);
            Run(store, first + second) == Trace(mid.responses + last.responses, last.final)
    decreases |first|
  {
    if first == [] {
      assert first + second == second;
    } else {
      var o := Handle(store, first[0]);
      assert (first + second)[0] == first[0];
      assert (first + second)[1..] == first[1..] + second;
      RunAppend(o.store, first[1..], second);
    }
  }

  /** A run made only of GET requests leaves the map as it was and answers each from it. */
  lemma {:induction false} ReadOnlyRun(store: map<string, Task>, reqs: seq<Request>)
    requires forall i :: 0 <= i < |reqs| ==> reqs[i].ListTasks? || reqs[i].GetTask?
    ensures Run(store, reqs).final == store
    ensures forall i :: 0 <= i < |reqs| ==>
      Run(store, reqs).responses[i] ==
        if reqs[i].ListTasks? then AllTasksResponse(store) else TaskResponse(store, reqs[i].id)
    decreases |reqs|
  {
    if reqs != [] {
      ReadOnlyRun(store, reqs[1..]);
      var t := Run(store, reqs);
      var rest := Run(store, reqs[1..]);
      assert t.responses == [Handle(store, reqs[0]).response] + rest.responses;
      forall i | 0 <= i < |reqs|
        ensures t.responses[i] ==
          if reqs[i].ListTasks? then AllTasksResponse(store) else TaskResponse(store, reqs[i].id)
      {
        if i > 0 {
          assert t.responses[i] == rest.responses[i - 1];
          assert reqs[1..][i - 1] == reqs[i];
        }
      }
    }
  }

  /** Deleting, one by one, a list of ids that covers every key empties the map. */
  lemma {:induction false} DeleteEachDrains(store: map<string, Task>, ids: seq<string>)
    requires forall k :: k in store ==> k in ids
    ensures Run(store, DeleteEach(ids)).final == map[]
    decreases |ids|
  {
    if ids == [] {
      assert store == map[];
    } else {
      var reqs := DeleteEach(ids);
      var o := Handle(store, reqs[0]);
      assert reqs[1..] == DeleteEach(ids[1..]);
      forall k | k in o.store ensures k in ids[1..] {
        assert k != ids[0];
        var j :| 0 <= j < |ids| && ids[j] == k;
        assert ids[1..][j - 1] == k;
      }
      DeleteEachDrains(o.store, ids[1..]);
    }
  }

  /** Once every key has been deleted, GET /tasks answers 500 "There is not a single task". */
  lemma DrainThenList(store: map<string, Task>, ids: seq<string>)
    requires forall k :: k in store ==> k in ids
    ensures Run(store, DeleteEach(ids) + [ListTasks]).responses[|ids|]
         == Response(StatusInternalServerError, Text(NoTasksMessage))
  {
    RunAppend(store, DeleteEach(ids), [ListTasks]);
    DeleteEachDrains(store, ids);
  }

  /** A posted record is what a following GET of its id returns, whatever was stored before. */
  lemma PostThenGet(store: map<string, Task>, task: Task)
    ensures Run(store, [PostTask(Success(task)), GetTask(task.id)]).responses
         == [Response(StatusOK, Empty), Response(StatusOK, OneTask(task))]
  {
  }

  /** After a successful delete, a GET of the same id answers 400 "Task not found". */
  lemma DeleteThenGet(store: map<string, Task>, id: string)
    requires id in store
    ensures Run(store, [DeleteTask(id), GetTask(id)]).responses
         == [Response(StatusOK, Empty), Response(StatusBadRequest, Text(TaskNotFoundMessage))]
  {
  }

  /** A second delete of the same id is refused with 400 and changes nothing. */
  lemma DeleteTwice(store: map<string, Task>, id: string)
    ensures var t := Run(store, [DeleteTask(id), DeleteTask(id)]);
            t.responses[1] == Response(StatusBadRequest, Text(TaskNotFoundMessage))
            && t.final == Run(store, [DeleteTask(id)]).final
  {
  }

  /** From the seeded map: post id "3", get it, delete it, get it again. */
  lemma SeededWalkthrough(third: Task)
    requires third.id == "3"
    ensures var t := Run(Seed(), [PostTask(Success(third)), GetTask("3"), DeleteTask("3"), GetTask("3")]);
            t.responses == [Response(StatusOK, Empty), Response(StatusOK, OneTask(third)),
                            Response(StatusOK, Empty), Response(StatusBadRequest, Text(TaskNotFoundMessage))]
            && t.final == Seed()
  {
    var seeded := Seed();
    var posted := seeded["3" := third];
    assert "3" !in seeded;
    assert posted - {"3"} == seeded;
    var miss := Response(StatusBadRequest, Text(TaskNotFoundMessage));
    var last := [GetTask("3")];
    var t3 := Run(seeded, last);
    assert t3 == Trace([miss], seeded);
    var fromDelete := [DeleteTask("3")] + last;
    assert fromDelete[1..] == last;
    assert DeleteOutcome(posted, "3") == Outcome(Response(StatusOK, Empty), seeded);
    var t2 := Run(posted, fromDelete);
    assert t2 == Trace([Response(StatusOK, Empty), miss], seeded);
    var fromGet := [GetTask("3")] + fromDelete;
    assert fromGet[1..] == fromDelete;
    var t1 := Run(posted, fromGet);
    assert t1 == Trace([Response(StatusOK, OneTask(third)), Response(StatusOK, Empty), miss], seeded);
    var reqs := [PostTask(Success(third))] + fromGet;
    assert reqs[1..] == fromGet;
    assert PostOutcome(seeded, Success(third)) == Outcome(Response(StatusOK, Empty), posted);
    assert reqs == [PostTask(Success(third)), GetTask("3"), DeleteTask("3"), GetTask("3")];
  }
}
