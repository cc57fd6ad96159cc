/** The Express API server: two in-memory collections, replaced wholesale by the update
    endpoints with the subset of the posted records that pass a shape check. */
module Server {
  import opened Js
  import opened Lists

  /** An HTTP response: its status and JSON body (timestamps, uptime and the environment name
      are not modelled). */
  datatype Response = Response(status: int, body: Value)

  /** A request body: not valid JSON (the JSON parser fails), or the parsed value. */
  datatype RequestBody = Malformed | Parsed(value: Value)

  /** The JSON body parser, in its default strict mode, refuses a body that is not JSON or
      whose top level is neither an object nor an array (`null`, a number, a string or a
      boolean); the refusal goes to the error handler. */
  predicate Rejected(body: RequestBody) {
    body.Malformed? || !(body.value.Obj? || body.value.Arr?)
  }

  /** The handlers a request can reach. */
  datatype Handler =
    | Preflight | Health | GetSheets | GetTasks | Debug | Root
    | UpdateSheets | UpdateTasks | NotFound

  const SheetUrl := Str("https://docs.google.com/spreadsheets/d/1BxiMVs0XRA5nFMdKvBdBZjgmUUqptlbs74OgvE2upms")

  /** The sheets the server starts with. */
  const SeedSheets: seq<Value> := [
    Obj(map["id" := Num(1), "title" := Str("Employee Database"), "url" := SheetUrl,
            "status" := Str("active"), "lastUpdated" := Str("2 hours ago"), "category" := Str("HR"),
            "description" := Str("Complete employee information and records"), "pinned" := Bool(true)]),
    Obj(map["id" := Num(2), "title" := Str("Project Timeline"), "url" := SheetUrl,
            "status" := Str("active"), "lastUpdated" := Str("1 day ago"),
            "category" := Str("Project Management"),
            "description" := Str("Project milestones and deadlines tracking"), "pinned" := Bool(false)]),
    Obj(map["id" := Num(3), "title" := Str("Budget Analysis"), "url" := SheetUrl,
            "status" := Str("pending"), "lastUpdated" := Str("3 days ago"), "category" := Str("Finance"),
            "description" := Str("Monthly budget analysis and forecasting"), "pinned" := Bool(false)])
  ]

  /** The tasks the server starts with. */
  const SeedTasks: seq<Value> := [
    Obj(map["id" := Num(1), "title" := Str("Review employee database"),
            "description" := Str("Check for missing information and update records"),
            "completed" := Bool(false), "priority" := Str("high"), "dueDate" := Str("2024-01-15"),
            "category" := Str("HR"), "pinned" := Bool(true)]),
    Obj(map["id" := Num(2), "title" := Str("Update project timeline"),
            "description" := Str("Add Q2 milestones and deadlines"),
            "completed" := Bool(true), "priority" := Str("medium"), "dueDate" := Str("2024-01-10"),
            "category" := Str("Project Management"), "pinned" := Bool(false)]),
    Obj(map["id" := Num(3), "title" := Str("Prepare monthly report"),
            "description" := Str("Compile data for monthly performance report"),
            "completed" := Bool(false), "priority" := Str("medium"), "dueDate" := Str("2024-01-20"),
            "category" := Str("General"), "pinned" := Bool(false)])
  ]

  // ---------------------------------------------------------------------------
  // Validation
  // ---------------------------------------------------------------------------

  /** `x && typeof x === "string"` */
  predicate NonEmptyString(v: Value) {
    Truthy(v) && TypeOf(v) == "string"
  }

  /** The sheet filter: a truthy object whose `title` and `url` are non-empty strings. A sheet
      passes exactly when it is a plain object with non-empty string `title` and `url` (an
      array is an object to `typeof` but has no `title`). */
  predicate ValidSheet(v: Value): (b: bool)
    ensures b <==>
      v.Obj? && Get(v.fields, "title").Str? && Get(v.fields, "title").s != ""
      && Get(v.fields, "url").Str? && Get(v.fields, "url").s != ""
  {
    Truthy(v) && TypeOf(v) == "object"
    && v.Obj? && NonEmptyString(Get(v.fields, "title")) && NonEmptyString(Get(v.fields, "url"))
  }

  /** The filter for tasks: a truthy object whose `title` is a non-empty string; nothing else
      about the task is checked. */
  predicate ValidTask(v: Value): (b: bool)
    ensures b <==> v.Obj? && Get(v.fields, "title").Str? && Get(v.fields, "title").s != ""
  {
    Truthy(v) && TypeOf(v) == "object" && v.Obj? && NonEmptyString(Get(v.fields, "title"))
  }

  /** The records an update keeps: the valid ones, in the posted order. */
  function ValidSheets(items: seq<Value>): (r: seq<Value>)
    ensures |r| <= |items|
    ensures forall i :: 0 <= i < |r| ==> ValidSheet(r[i]) && r[i] in items
    ensures forall i :: 0 <= i < |items| && ValidSheet(items[i]) ==> items[i] in r
    ensures Subseq(r, items)
    ensures (forall i :: 0 <= i < |items| ==> ValidSheet(items[i])) ==> r == items
  {
    FilterIsSubseq(items, ValidSheet);
    if forall i :: 0 <= i < |items| ==> ValidSheet(items[i]) then
      FilterKeepsAll(items, ValidSheet);
      Filter(items, ValidSheet)
    else
      Filter(items, ValidSheet)
  }

  function ValidTasks(items: seq<Value>): (r: seq<Value>)
    ensures |r| <= |items|
    ensures forall i :: 0 <= i < |r| ==> ValidTask(r[i]) && r[i] in items
    ensures forall i :: 0 <= i < |items| && ValidTask(items[i]) ==> items[i] in r
    ensures Subseq(r, items)
    ensures (forall i :: 0 <= i < |items| ==> ValidTask(items[i])) ==> r == items
  {
    FilterIsSubseq(items, ValidTask);
    if forall i :: 0 <= i < |items| ==> ValidTask(items[i]) then
      FilterKeepsAll(items, ValidTask);
      Filter(items, ValidTask)
    else
      Filter(items, ValidTask)
  }

  /** Two posted batches validate as their concatenation does: the check is per record. */
  lemma ValidSheetsAppend(a: seq<Value>, b: seq<Value>)
    ensures ValidSheets(a + b) == ValidSheets(a) + ValidSheets(b)
  {
    FilterAppend(a, b, ValidSheet);
  }

  // ---------------------------------------------------------------------------
  // Routing
  // ---------------------------------------------------------------------------

  /** Express's default path matching: case-insensitive, one optional trailing slash. */
  predicate PathMatches(path: string, route: string) {
    if route == "/" then path == "/" || path == ""
    else ToLower(path) == route || ToLower(path) == route + "/"
  }

  /** Which handler a request reaches. The CORS middleware answers every OPTIONS request
      itself; GET routes also serve HEAD; anything else falls to the 404 handler. */
  function Route(verb: string, path: string): (e: Handler)
    ensures e == Preflight <==> verb == "OPTIONS"
    ensures (e == UpdateSheets || e == UpdateTasks) ==> verb == "POST"
    ensures (e == Health || e == GetSheets || e == GetTasks) ==> verb == "GET" || verb == "HEAD"
  {
    if verb == "OPTIONS" then Preflight
    else if verb == "GET" || verb == "HEAD" then
      if PathMatches(path, "/api/health") then Health
      else if PathMatches(path, "/api/sheets") then GetSheets
      else if PathMatches(path, "/api/tasks") then GetTasks
      else if PathMatches(path, "/api/debug") then Debug
      else if PathMatches(path, "/") then Root
      else NotFound
    else if verb == "POST" then
      if PathMatches(path, "/api/update-sheets") then UpdateSheets
      else if PathMatches(path, "/api/update-tasks") then UpdateTasks
      else NotFound
    else NotFound
  }

  // ---------------------------------------------------------------------------
  // Response bodies
  // ---------------------------------------------------------------------------

  function InvalidArrayReply(what: string, received: Value): (r: Response)
    ensures r.status == 400 && r.body.Obj? && Get(r.body.fields, "success") == Bool(false)
  {
    Response(400, Obj(map["success" := Bool(false),
                          "error" := Str("Invalid " + what + " data - must be an array"),
                          "received" := Str(TypeOf(received))]))
  }

  const InternalError := Response(500, Obj(map["success" := Bool(false), "error" := Str("Internal server error")]))

  function UpdatedReply(what: string, posted: nat, kept: nat): (r: Response)
    requires kept <= posted
    ensures r.status == 200 && r.body.Obj?
    ensures Get(r.body.fields, "success") == Bool(true)
    ensures Get(r.body.fields, "count") == Num(kept)
    ensures Get(r.body.fields, "filtered") == Num(posted - kept)
  {
    Response(200, Obj(map["success" := Bool(true),
                          "message" := Str(what + " updated successfully"),
                          "count" := Num(kept),
                          "filtered" := Num(posted - kept)]))
  }

  /** The 404 handler's reply: it echoes the path and the method. */
  function NotFoundReply(verb: string, path: string): (r: Response)
    ensures r.status == 404 && r.body.Obj?
    ensures Get(r.body.fields, "success") == Bool(false)
    ensures Get(r.body.fields, "path") == Str(path) && Get(r.body.fields, "method") == Str(verb)
  {
    Response(404, Obj(map["success" := Bool(false), "error" := Str("Endpoint not found"),
                          "path" := Str(path), "method" := Str(verb)]))
  }

  function DataStatus(sheets: nat, tasks: nat): Value {
    Obj(map["sheets" := Num(sheets), "tasks" := Num(tasks)])
  }

  // ---------------------------------------------------------------------------
  // The server
  // ---------------------------------------------------------------------------

  class ApiServer {
    var sheetsData: seq<Value>
    var tasksData: seq<Value>

    constructor ()
      ensures sheetsData == SeedSheets && tasksData == SeedTasks
    {
      sheetsData, tasksData := SeedSheets, SeedTasks;
    }

    /** `GET /api/health`: `dataStatus` holds the current collection lengths. */
    method HealthCheck() returns (resp: Response)
      ensures resp.status == 200 && resp.body.Obj?
      ensures Get(resp.body.fields, "status") == Str("OK")
      ensures Get(resp.body.fields, "dataStatus") == DataStatus(|sheetsData|, |tasksData|)
    {
      resp := Response(200, Obj(map[
        "status" := Str("OK"),
        "message" := Str("AnyTrip Dashboard Server is running perfectly!"),
        "dataStatus" := DataStatus(|sheetsData|, |tasksData|),
        "version" := Str("2.0.0")]));
    }

    /** `GET /api/sheets`: the current collection. */
    method ServeSheets() returns (resp: Response)
      ensures resp == Response(200, Arr(sheetsData))
    {
      resp := Response(200, Arr(sheetsData));
    }

    /** `GET /api/tasks`: the current collection. */
    method ServeTasks() returns (resp: Response)
      ensures resp == Response(200, Arr(tasksData))
    {
      resp := Response(200, Arr(tasksData));
    }

    /** `GET /api/debug` (only the counts and items of its body are modelled). */
    method ServeDebug() returns (resp: Response)
      ensures resp.status == 200
    {
      resp := Response(200, Obj(map["data" := Obj(map[
        "sheets" := Obj(map["count" := Num(|sheetsData|), "items" := Arr(sheetsData)]),
        "tasks" := Obj(map["count" := Num(|tasksData|), "items" := Arr(tasksData)])])]));
    }

    /** `GET /` (only the status and counts of its body are modelled). */
    method ServeRoot() returns (resp: Response)
      ensures resp.status == 200
    {
      resp := Response(200, Obj(map["status" := Str("running"),
                                    "dataStatus" := DataStatus(|sheetsData|, |tasksData|)]));
    }

    /** `POST /api/update-sheets`: a body whose `sheets` is not an array is refused with 400
        and changes nothing; otherwise the collection is REPLACED by the valid subset. */
    method UpdateSheetsHandler(body: Value) returns (resp: Response)
      modifies this`sheetsData
      ensures ReadOwn(body, "sheets").None? ==> resp == InternalError && sheetsData == old(sheetsData)
      ensures ReadOwn(body, "sheets").Some? && !ReadOwn(body, "sheets").value.Arr? ==>
                resp == InvalidArrayReply("sheets", ReadOwn(body, "sheets").value)
                && sheetsData == old(sheetsData)
      ensures ReadOwn(body, "sheets").Some? && ReadOwn(body, "sheets").value.Arr? ==>
                var items := ReadOwn(body, "sheets").value.items;
                sheetsData == ValidSheets(items)
                && resp == UpdatedReply("Sheets", |items|, |ValidSheets(items)|)
    {
      var sheets := ReadOwn(body, "sheets");
      if sheets.None? {
        // destructuring `undefined` or `null` throws; the catch answers 500
        return InternalError;
      }
      if !Truthy(sheets.value) || !sheets.value.Arr? {
        return InvalidArrayReply("sheets", sheets.value);
      }
      var validSheets := ValidSheets(sheets.value.items);
      sheetsData := validSheets;
      resp := UpdatedReply("Sheets", |sheets.value.items|, |validSheets|);
    }

    /** `POST /api/update-tasks`, the same for tasks (only `title` is required). */
    method UpdateTasksHandler(body: Value) returns (resp: Response)
      modifies this`tasksData
      ensures ReadOwn(body, "tasks").None? ==> resp == InternalError && tasksData == old(tasksData)
      ensures ReadOwn(body, "tasks").Some? && !ReadOwn(body, "tasks").value.Arr? ==>
                resp == InvalidArrayReply("tasks", ReadOwn(body, "tasks").value)
                && tasksData == old(tasksData)
      ensures ReadOwn(body, "tasks").Some? && ReadOwn(body, "tasks").value.Arr? ==>
                var items := ReadOwn(body, "tasks").value.items;
                tasksData == ValidTasks(items)
                && resp == UpdatedReply("Tasks", |items|, |ValidTasks(items)|)
    {
      var tasks := ReadOwn(body, "tasks");
      if tasks.None? {
        return InternalError;
      }
      if !Truthy(tasks.value) || !tasks.value.Arr? {
        return InvalidArrayReply("tasks", tasks.value);
      }
      var validTasks := ValidTasks(tasks.value.items);
      tasksData := validTasks;
      resp := UpdatedReply("Tasks", |tasks.value.items|, |validTasks|);
    }

    /** One request through the middleware chain: CORS preflight, JSON body parsing (a body
        the parser refuses goes to the error handler), the routes, and the 404 handler. A
        parsed body is an object or an array, so destructuring it never throws. */
    method Handle(verb: string, path: string, body: RequestBody) returns (resp: Response)
      modifies this
      ensures Route(verb, path) == Preflight ==> resp.status == 204 && unchanged(this)
      ensures Route(verb, path) != Preflight && Rejected(body) ==>
                resp == InternalError && unchanged(this)
      ensures Route(verb, path) == NotFound && !Rejected(body) ==>
                resp == NotFoundReply(verb, path) && unchanged(this)
      ensures Route(verb, path) == Health && !Rejected(body) ==>
                resp.status == 200 && resp.body.Obj? && Get(resp.body.fields, "status") == Str("OK")
                && Get(resp.body.fields, "dataStatus") == DataStatus(|old(sheetsData)|, |old(tasksData)|)
                && unchanged(this)
      ensures Route(verb, path) == GetSheets && !Rejected(body) ==>
                resp == Response(200, Arr(old(sheetsData))) && unchanged(this)
      ensures Route(verb, path) == GetTasks && !Rejected(body) ==>
                resp == Response(200, Arr(old(tasksData))) && unchanged(this)
      ensures Route(verb, path) !in {UpdateSheets, UpdateTasks} ==> unchanged(this)
      ensures Route(verb, path) == UpdateSheets ==> tasksData == old(tasksData)
      ensures Route(verb, path) == UpdateTasks ==> sheetsData == old(sheetsData)
      ensures Route(verb, path) == UpdateSheets && !Rejected(body) ==>
                ReadOwn(body.value, "sheets").Some?
                && var sheets := ReadOwn(body.value, "sheets").value;
                (!sheets.Arr? ==> resp == InvalidArrayReply("sheets", sheets) && sheetsData == old(sheetsData))
                && (sheets.Arr? ==>
                      sheetsData == ValidSheets(sheets.items)
                      && resp == UpdatedReply("Sheets", |sheets.items|, |ValidSheets(sheets.items)|))
      ensures Route(verb, path) == UpdateTasks && !Rejected(body) ==>
                ReadOwn(body.value, "tasks").Some?
                && var tasks := ReadOwn(body.value, "tasks").value;
                (!tasks.Arr? ==> resp == InvalidArrayReply("tasks", tasks) && tasksData == old(tasksData))
                && (tasks.Arr? ==>
                      tasksData == ValidTasks(tasks.items)
                      && resp == UpdatedReply("Tasks", |tasks.items|, |ValidTasks(tasks.items)|))
    {
      var endpoint := Route(verb, path);
      if endpoint == Preflight {
        return Response(204, Undefined);
      }
      if Rejected(body) {
        return InternalError;
      }
      match endpoint
      case Health => resp := HealthCheck();
      case GetSheets => resp := ServeSheets();
      case GetTasks => resp := ServeTasks();
      case Debug => resp := ServeDebug();
      case Root => resp := ServeRoot();
      case UpdateSheets => resp := UpdateSheetsHandler(body.value);
      case UpdateTasks => resp := UpdateTasksHandler(body.value);
      case NotFound => resp := NotFoundReply(verb, path);
    }
  }

  /** The two requests of the update-then-read round trip reach their handlers. */
  lemma UpdateAndReadRoutes()
    ensures Route("POST", "/api/update-sheets") == UpdateSheets
    ensures Route("GET", "/api/sheets") == GetSheets
  {
    var post, get := "/api/update-sheets", "/api/sheets";
    assert ToLower(post) == post;
    assert ToLower(get) == get;
    assert ToLower(get)[5] != "/api/health"[5];
  }

  /** A record whose title is empty is dropped from between two valid ones. */
  lemma DropsUntitled(a: Value, c: Value)
    requires ValidSheet(a) && ValidSheet(c)
    ensures ValidSheets([a, Obj(map["title" := Str(""), "url" := Str("x")]), c]) == [a, c]
  {
    var invalid := Obj(map["title" := Str(""), "url" := Str("x")]);
    assert !ValidSheet(invalid);
    assert [a, invalid, c] == [a] + [invalid] + [c];
    ValidSheetsAppend([a] + [invalid], [c]);
    ValidSheetsAppend([a], [invalid]);
  }

  /** On a freshly started server, a `POST /api/update-sheets` followed by a
      `GET /api/sheets` reads back exactly the valid subset of what was posted, and the seed
      sheets are gone: one record with an empty title among two valid ones is dropped and
      reported. */
  method UpdateThenRead(a: Value, c: Value) returns (count: Value, filtered: Value, later: Value)
    requires ValidSheet(a) && ValidSheet(c)
    ensures count == Num(2) && filtered == Num(1)
    ensures later == Arr([a, c])
  {
    var server := new ApiServer();
    var items := [a, Obj(map["title" := Str(""), "url" := Str("x")]), c];
    DropsUntitled(a, c);
    UpdateAndReadRoutes();
    var reply := server.Handle("POST", "/api/update-sheets", Parsed(Obj(map["sheets" := Arr(items)])));
    count, filtered := Get(reply.body.fields, "count"), Get(reply.body.fields, "filtered");
    var read := server.Handle("GET", "/api/sheets", Parsed(Obj(map[])));
    later := read.body;
  }
}
