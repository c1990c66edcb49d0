/** The `/api/tasks` collection route: `GET` lists the route's own task
    list, `POST` validates a body and appends a new task to it. */
module TasksRoute {
  import opened Basics
  import opened Types
  import opened Store

  /** The parsed `POST` body; a missing or null field is `None`. */
  datatype NewTaskBody = NewTaskBody(title: Option<string>, description: Option<string>)

  /** `!!field` for an optional string: present and not empty. */
  predicate Filled(field: Option<string>) {
    field.Some? && field.value != ""
  }

  /** Every task has a non-empty title and description. The seed satisfies
      it and `POST` keeps it (the tool server's `create_task` does not). */
  predicate AllFilled(s: seq<Task>) {
    forall i :: 0 <= i < |s| ==> s[i].title != "" && s[i].description != ""
  }

  lemma SeedIsFilled()
    ensures AllFilled(Seed)
  {
  }

  /** `GET /api/tasks`. */
  method Get(tasks: TaskStore) returns (reply: HttpReply<seq<Task>>)
    ensures reply.status == 200 && reply.body.success
    ensures reply.body.data == Some(tasks.tasks)
    ensures reply.body.message == Some("Retrieved " + Decimal(|tasks.tasks|) + " tasks")
  {
    reply := HttpReply(200, Succeeded(tasks.tasks, "Retrieved " + Decimal(|tasks.tasks|) + " tasks"));
  }

  /** `POST /api/tasks`. `body` is the outcome of `request.json()` (an
      `Err` carries the parse error's message); `now` is the clock reading. */
  method Post(tasks: TaskStore, body: Result<NewTaskBody, string>, now: Timestamp)
    returns (reply: HttpReply<Task>)
    modifies tasks
    ensures body.Err? ==> reply == HttpReply(500, Failed(body.error)) && tasks.tasks == old(tasks.tasks)
    ensures body.Ok? && !(Filled(body.value.title) && Filled(body.value.description)) ==>
      && reply == HttpReply(400, Failed("Title and description are required"))
      && tasks.tasks == old(tasks.tasks)
    ensures body.Ok? && Filled(body.value.title) && Filled(body.value.description) ==>
      var t := Task(Decimal(now), body.value.title.value, body.value.description.value, false, now, now);
      && tasks.tasks == old(tasks.tasks) + [t]
      && reply == HttpReply(201, Succeeded(t, "Task created successfully"))
    ensures reply.status == 201 <==> tasks.tasks != old(tasks.tasks)
    ensures AllFilled(old(tasks.tasks)) ==> AllFilled(tasks.tasks)
  {
    if body.Err? {
      return HttpReply(500, Failed(body.error));
    }
    var b := body.value;
    if !Filled(b.title) || !Filled(b.description) {
      return HttpReply(400, Failed("Title and description are required"));
    }
    var newTask := Task(Decimal(now), b.title.value, b.description.value, false, now, now);
    tasks.Push(newTask);
    assert |tasks.tasks| == |old(tasks.tasks)| + 1;
    reply := HttpReply(201, Succeeded(newTask, "Task created successfully"));
  }
}
