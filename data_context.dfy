/** The client's data provider: the two collections (sheet links and tasks), the startup
    load across server, local JSON file, browser storage and built-in data, and the mutation
    pipeline (new list -> in-memory state -> browser storage -> best-effort push). */
module DataContext {
  import opened Js
  import opened Lists

  /** Browser storage keys of the two collections. */
  const SheetsKey := "allSheets"
  const TasksKey := "allTasks"

  const JustNow := Str("Just now")

  /** The built-in sheets used when nothing else is available on the error path. */
  const FallbackSheets: seq<Record> := [
    map["id" := Num(1), "title" := Str("Employee Database"),
        "url" := Str("https://docs.google.com/spreadsheets/d/1BxiMVs0XRA5nFMdKvBdBZjgmUUqptlbs74OgvE2upms"),
        "status" := Str("pending"), "lastUpdated" := Str("Just now"), "category" := Str("HR"),
        "description" := Str("Complete employee information and records")],
    map["id" := Num(2), "title" := Str("Project Timeline"),
        "url" := Str("https://docs.google.com/spreadsheets/d/1BxiMVs0XRA5nFMdKvBdBZjgmUUqptlbs74OgvE2upms"),
        "status" := Str("active"), "lastUpdated" := Str("1 day ago"), "category" := Str("Project Management"),
        "description" := Str("Project milestones and deadlines tracking")]
  ]

  /** The built-in tasks used when nothing else is available on the error path. */
  const FallbackTasks: seq<Record> := [
    map["id" := Num(1), "title" := Str("Review employee database"),
        "description" := Str("Check for missing information and update records"),
        "completed" := Bool(false), "priority" := Str("high"), "dueDate" := Str("2024-01-15"),
        "category" := Str("HR")],
    map["id" := Num(2), "title" := Str("Update project timeline"),
        "description" := Str("Add Q2 milestones and deadlines"),
        "completed" := Bool(true), "priority" := Str("medium"), "dueDate" := Str("2024-01-10"),
        "category" := Str("Project Management")]
  ]

  /** `record.id === id`: a record that has an id matches exactly that id, and one without
      an id matches only `undefined`. */
  predicate HasId(r: Record, id: Value): (b: bool)
    ensures "id" in r ==> (b <==> r["id"] == id)
    ensures "id" !in r ==> (b <==> id == Undefined)
  {
    Get(r, "id") == id
  }

  // ---------------------------------------------------------------------------
  // The list transforms behind each mutation
  // ---------------------------------------------------------------------------

  /** `{ id: now, ...input }`: every field of the input, with `id` generated only when the
      input has none (an `id` in the input, even `undefined`, wins). */
  function NewRecord(input: Record, now: int): (r: Record)
    ensures r.Keys == input.Keys + {"id"}
    ensures forall k :: k in input ==> r[k] == input[k]
    ensures "id" !in input ==> r["id"] == Num(now)
  {
    map["id" := Num(now)] + input
  }

  /** `[...list, newRecord]` (addSheet, addTask). */
  function Appended(list: seq<Record>, input: Record, now: int): (r: seq<Record>)
    ensures |r| == |list| + 1
    ensures r[..|list|] == list
    ensures r[|list|] == NewRecord(input, now)
  {
    list + [NewRecord(input, now)]
  }

  /** `list.filter(r => r.id !== id)` (removeSheet, removeTask). */
  function WithoutId(list: seq<Record>, id: Value): (r: seq<Record>)
    ensures forall i :: 0 <= i < |r| ==> !HasId(r[i], id)
    ensures forall i :: 0 <= i < |list| && !HasId(list[i], id) ==> list[i] in r
    ensures forall i :: 0 <= i < |r| ==> r[i] in list
    ensures (forall i :: 0 <= i < |list| ==> !HasId(list[i], id)) ==> r == list
    ensures Subseq(r, list)
  {
    var keep := (x: Record) => !HasId(x, id);
    FilterIsSubseq(list, keep);
    AbsentIdKeepsAll(list, id);
    Filter(list, keep)
  }

  lemma AbsentIdKeepsAll(list: seq<Record>, id: Value)
    ensures (forall i :: 0 <= i < |list| ==> !HasId(list[i], id)) ==> Filter(list, (x: Record) => !HasId(x, id)) == list
  {
    if forall i :: 0 <= i < |list| ==> !HasId(list[i], id) {
      FilterKeepsAll(list, (x: Record) => !HasId(x, id));
    }
  }

  /** `{ ...sheet, ...updates, lastUpdated: "Just now" }` */
  function StampedSheet(sheet: Record, updates: Record): (r: Record)
    ensures r.Keys == sheet.Keys + updates.Keys + {"lastUpdated"}
    ensures r["lastUpdated"] == JustNow
    ensures forall k :: k in updates && k != "lastUpdated" ==> r[k] == updates[k]
    ensures forall k :: k in sheet && k !in updates && k != "lastUpdated" ==> r[k] == sheet[k]
  {
    sheet + updates + map["lastUpdated" := JustNow]
  }

  /** `sheets.map(s => s.id === id ? stamped : s)` (updateSheet). */
  function SheetsUpdated(list: seq<Record>, id: Value, updates: Record): (r: seq<Record>)
    ensures |r| == |list|
    ensures forall i :: 0 <= i < |list| && !HasId(list[i], id) ==> r[i] == list[i]
    ensures forall i :: 0 <= i < |list| && HasId(list[i], id) ==> r[i] == StampedSheet(list[i], updates)
  {
    seq(|list|, i requires 0 <= i < |list| =>
      if HasId(list[i], id) then StampedSheet(list[i], updates) else list[i])
  }

  /** `{ ...task, ...updates, completed: updates.status === "completed" }` */
  function StatusedTask(task: Record, updates: Record): (r: Record)
    ensures r.Keys == task.Keys + updates.Keys + {"completed"}
    ensures r["completed"] == Bool(Get(updates, "status") == Str("completed"))
    ensures forall k :: k in updates && k != "completed" ==> r[k] == updates[k]
    ensures forall k :: k in task && k !in updates && k != "completed" ==> r[k] == task[k]
  {
    task + updates + map["completed" := Bool(Get(updates, "status") == Str("completed"))]
  }

  /** `tasks.map(t => t.id === id ? statused : t)` (updateTask). */
  function TasksUpdated(list: seq<Record>, id: Value, updates: Record): (r: seq<Record>)
    ensures |r| == |list|
    ensures forall i :: 0 <= i < |list| && !HasId(list[i], id) ==> r[i] == list[i]
    ensures forall i :: 0 <= i < |list| && HasId(list[i], id) ==> r[i] == StatusedTask(list[i], updates)
  {
    seq(|list|, i requires 0 <= i < |list| =>
      if HasId(list[i], id) then StatusedTask(list[i], updates) else list[i])
  }

  /** `{ ...task, completed: !task.completed }` */
  function FlippedTask(task: Record): (r: Record)
    ensures r.Keys == task.Keys + {"completed"}
    ensures r["completed"] == Bool(!Truthy(Get(task, "completed")))
    ensures forall k :: k in task && k != "completed" ==> r[k] == task[k]
  {
    task["completed" := Bool(!Truthy(Get(task, "completed")))]
  }

  /** `tasks.map(t => t.id === id ? flipped : t)` (toggleTask). */
  function TasksToggled(list: seq<Record>, id: Value): (r: seq<Record>)
    ensures |r| == |list|
    ensures forall i :: 0 <= i < |list| && !HasId(list[i], id) ==> r[i] == list[i]
    ensures forall i :: 0 <= i < |list| && HasId(list[i], id) ==> r[i] == FlippedTask(list[i])
  {
    seq(|list|, i requires 0 <= i < |list| =>
      if HasId(list[i], id) then FlippedTask(list[i]) else list[i])
  }

  /** Toggling a task never changes which id it carries. */
  lemma FlipKeepsId(task: Record, id: Value)
    ensures HasId(FlippedTask(task), id) <==> HasId(task, id)
  {
    assert Get(FlippedTask(task), "id") == Get(task, "id");
  }

  /** Toggling the same id twice restores the list, provided every task with that id holds a
      boolean `completed` (a missing or non-boolean one comes back as a boolean). */
  lemma {:induction false} ToggleTwiceRestores(list: seq<Record>, id: Value)
    requires forall i :: 0 <= i < |list| && HasId(list[i], id) ==> Get(list[i], "completed").Bool?
    ensures TasksToggled(TasksToggled(list, id), id) == list
  {
    var once := TasksToggled(list, id);
    var twice := TasksToggled(once, id);
    forall i | 0 <= i < |list|
      ensures twice[i] == list[i]
    {
      FlipKeepsId(list[i], id);
      if HasId(list[i], id) {
        var t := list[i];
        assert "completed" in t;
        assert FlippedTask(FlippedTask(t)) == t;
      }
    }
  }

  /** A task that has no `completed` field comes back from two toggles with `completed: false`. */
  lemma ToggleTwiceAddsCompleted(task: Record, id: Value)
    requires HasId(task, id) && "completed" !in task
    ensures TasksToggled(TasksToggled([task], id), id) == [task["completed" := Bool(false)]]
    ensures TasksToggled(TasksToggled([task], id), id) != [task]
  {
    var once := FlippedTask(task);
    FlipKeepsId(task, id);
    FlipKeepsId(once, id);
    assert TasksToggled([task], id) == [once];
    assert once["completed"] == Bool(true);
    assert FlippedTask(once) == task["completed" := Bool(false)];
    assert TasksToggled([once], id) == [FlippedTask(once)];
    assert task["completed" := Bool(false)] != task;
  }

  /** After a status update the matching tasks' `completed` is exactly `status == "completed"`,
      whatever it was before; no other task changes. */
  lemma UpdateDerivesCompleted(list: seq<Record>, id: Value, updates: Record, i: int)
    requires 0 <= i < |list|
    ensures HasId(list[i], id) ==>
      Get(TasksUpdated(list, id, updates)[i], "completed") == Bool(Get(updates, "status") == Str("completed"))
    ensures !HasId(list[i], id) ==> TasksUpdated(list, id, updates)[i] == list[i]
  {
  }

  /** After `updateSheet` every matching record reads `lastUpdated: "Just now"`, even when the
      updates carry their own `lastUpdated`. */
  lemma UpdateStampsSheet(list: seq<Record>, id: Value, updates: Record, i: int)
    requires 0 <= i < |list| && HasId(list[i], id)
    ensures Get(SheetsUpdated(list, id, updates)[i], "lastUpdated") == JustNow
  {
  }

  /** Removing twice is removing once; removing an id nobody has changes nothing. */
  lemma {:induction false} RemoveIdempotent(list: seq<Record>, id: Value)
    ensures WithoutId(WithoutId(list, id), id) == WithoutId(list, id)
  {
  }

  // ---------------------------------------------------------------------------
  // The remote push (updateJsonFiles)
  // ---------------------------------------------------------------------------

  datatype Kind = SheetsKind | TasksKind

  /** How the remote answered a push: 2xx, another status, or no answer at all. */
  datatype PushOutcome = Accepted | Refused | NoAnswer

  /** A POST the client sent: the URL and the JSON body. */
  datatype Push = Push(url: string, payload: Value)

  function Endpoint(kind: Kind): string {
    if kind == SheetsKind then "/api/update-sheets" else "/api/update-tasks"
  }

  function StorageKey(kind: Kind): string {
    if kind == SheetsKind then SheetsKey else TasksKey
  }

  /** The trailing-slash strip of the base URL: one trailing slash removed. */
  function StripTrailingSlash(base: string): (r: string)
    ensures r == base || (base == r + "/")
    ensures r != [] ==> r[|r| - 1] != '/' || base == r + "/"
  {
    if base != [] && base[|base| - 1] == '/' then base[..|base| - 1] else base
  }

  /** The URL `updateJsonFiles` posts to: the base URL exactly as configured, followed by the
      endpoint path. Unlike the health check and the loads, it does not strip a trailing
      slash, so a base URL ending in "/" gives a path with a doubled slash. */
  function PushUrl(base: string, kind: Kind): (url: string)
    ensures |base| < |url| && url[..|base|] == base && url[|base|] == '/'
    ensures base != [] && base[|base| - 1] == '/' ==> url[|base| - 1..|base| + 1] == "//"
  {
    var e := Endpoint(kind);
    assert e[0] == '/';
    var url := base + e;
    assert url[..|base|] == base && url[|base|] == e[0];
    url
  }

  /** The records as JSON objects. */
  function AsValues(list: seq<Record>): (r: seq<Value>)
    ensures |r| == |list|
    ensures forall i :: 0 <= i < |list| ==> r[i] == Obj(list[i])
  {
    seq(|list|, i requires 0 <= i < |list| => Obj(list[i]))
  }

  /** `{ sheets: data }` or `{ tasks: data }`: one property, named after the kind, holding
      the list's records in order. */
  function Payload(kind: Kind, data: seq<Record>): (p: Value)
    ensures var key := if kind == SheetsKind then "sheets" else "tasks";
            p.Obj? && p.fields.Keys == {key} && p.fields[key].Arr?
            && |p.fields[key].items| == |data|
            && forall i :: 0 <= i < |data| ==> p.fields[key].items[i] == Obj(data[i])
  {
    Obj(map[(if kind == SheetsKind then "sheets" else "tasks") := Arr(AsValues(data))])
  }

  // ---------------------------------------------------------------------------
  // The startup load
  // ---------------------------------------------------------------------------

  /** The health probe: a 2xx answer, another status, or a network failure. */
  datatype Probe = HealthOk | HealthNotOk | HealthUnreachable

  /** A response body as `response.json()` reads it. */
  datatype Body = Unparsable | JsonNull | JsonArray(items: seq<Record>)

  /** A GET to the server: a network failure, or a response with its `ok` flag and body. */
  datatype Fetched = FetchFailed | Fetched(ok: bool, body: Body)

  /** The bundled local JSON file (`/data/sheets.json`, `/data/tasks.json`): unreachable or not JSON, or its array of records. */
  datatype LocalFile = Unreadable | FileItems(items: seq<Record>)

  /** The value of `sheetsData` / `tasksData` during the load. */
  datatype Loaded = LoadedNull | Loaded(items: seq<Record>)

  /** What `loadData` leaves behind. */
  datatype StartupResult = StartupResult(
    sheets: seq<Record>, tasks: seq<Record>, storage: map<string, seq<Record>>, connected: bool)

  /** `serverConnected` after `checkServerConnection`: set on a 2xx or a network failure,
      left alone on another status. */
  function ConnectedAfter(probe: Probe, was: bool): (c: bool)
    ensures probe == HealthOk ==> c
    ensures probe == HealthUnreachable ==> !c
    ensures probe == HealthNotOk ==> c == was
  {
    match probe
    case HealthOk => true
    case HealthNotOk => was
    case HealthUnreachable => false
  }

  /** Both server GETs in one `try`: a network failure of either, or an unparsable body, ends
      the block with whatever was assigned so far. */
  function ServerPhase(ss: Fetched, ts: Fetched): (r: (Loaded, Loaded))
    ensures ss.FetchFailed? || ts.FetchFailed? ==> r == (Loaded([]), Loaded([]))
    ensures r.0.LoadedNull? <==> ts.Fetched? && ss.Fetched? && ss.ok && ss.body.JsonNull?
    ensures r.1.LoadedNull? <==>
              ss.Fetched? && !(ss.ok && ss.body.Unparsable?) && ts.Fetched? && ts.ok && ts.body.JsonNull?
    ensures ts.Fetched? && ss.Fetched? && ss.ok && ss.body.JsonArray? ==> r.0 == Loaded(ss.body.items)
    ensures ss.Fetched? && !ss.ok ==> r.0 == Loaded([])
  {
    if ss.FetchFailed? || ts.FetchFailed? then (Loaded([]), Loaded([]))
    else if ss.ok && ss.body.Unparsable? then (Loaded([]), Loaded([]))
    else
      var s := if ss.ok then FromBody(ss.body) else Loaded([]);
      if ts.ok && ts.body.Unparsable? then (s, Loaded([]))
      else (s, if ts.ok then FromBody(ts.body) else Loaded([]))
  }

  function FromBody(b: Body): Loaded
    requires !b.Unparsable?
  {
    if b.JsonNull? then LoadedNull else Loaded(b.items)
  }

  /** `if (data.length === 0) data = <local file>` for a non-null `data`. */
  function WithLocal(v: seq<Record>, file: LocalFile): seq<Record> {
    if v == [] && file.FileItems? then file.items else v
  }

  /** The `catch` branch: each collection from browser storage if present, otherwise the
      built-in data (which is then stored). A storage write that throws here leaves the catch
      branch early, so the tasks keep their current value. */
  function Recover(storage: map<string, seq<Record>>, writable: bool,
                   curTasks: seq<Record>, connected: bool): (r: StartupResult)
    ensures r.connected == connected
    ensures r.sheets == if SheetsKey in storage then storage[SheetsKey] else FallbackSheets
    ensures SheetsKey in storage || writable ==>
              r.tasks == if TasksKey in storage then storage[TasksKey] else FallbackTasks
    ensures SheetsKey !in storage && !writable ==> r.tasks == curTasks && r.storage == storage
    ensures writable ==> Mirrors(r)
  {
    if SheetsKey in storage then
      RecoverTasks(storage, writable, storage[SheetsKey], connected)
    else if writable then
      RecoverTasks(storage[SheetsKey := FallbackSheets], writable, FallbackSheets, connected)
    else
      StartupResult(FallbackSheets, curTasks, storage, connected)
  }

  function RecoverTasks(storage: map<string, seq<Record>>, writable: bool,
                        sheets: seq<Record>, connected: bool): StartupResult
  {
    if TasksKey in storage then StartupResult(sheets, storage[TasksKey], storage, connected)
    else if writable then StartupResult(sheets, FallbackTasks, storage[TasksKey := FallbackTasks], connected)
    else StartupResult(sheets, FallbackTasks, storage, connected)
  }

  /** The whole of `loadData`, given what each source yields. */
  function Startup(probe: Probe, wasConnected: bool, ss: Fetched, ts: Fetched,
                   ls: LocalFile, lt: LocalFile, storage: map<string, seq<Record>>,
                   writable: bool, curTasks: seq<Record>): (r: StartupResult)
    ensures r.connected == ConnectedAfter(probe, wasConnected)
    ensures probe != HealthOk && writable ==>
              r.sheets == WithLocal([], ls) && r.tasks == WithLocal([], lt)
  {
    var (s0, t0) := if probe == HealthOk then ServerPhase(ss, ts) else (Loaded([]), Loaded([]));
    Settle(s0, t0, ls, lt, storage, writable, curTasks, ConnectedAfter(probe, wasConnected))
  }

  /** What follows the server GETs: the local-file fallback, then the two storage writes. */
  function Settle(s0: Loaded, t0: Loaded, ls: LocalFile, lt: LocalFile,
                  storage: map<string, seq<Record>>, writable: bool, curTasks: seq<Record>,
                  connected: bool): (r: StartupResult)
    ensures r.connected == connected
    ensures s0.LoadedNull? || t0.LoadedNull? ==> r == Recover(storage, writable, curTasks, connected)
    ensures !s0.LoadedNull? && !t0.LoadedNull? && writable ==>
              r.sheets == WithLocal(s0.items, ls) && r.tasks == WithLocal(t0.items, lt)
    ensures !s0.LoadedNull? && !t0.LoadedNull? && !writable ==>
              r.sheets == (if SheetsKey in storage then storage[SheetsKey] else FallbackSheets)
    ensures writable ==> Mirrors(r)
  {
    if s0.LoadedNull? || t0.LoadedNull? then
      // `.length` of null throws before anything is set
      Recover(storage, writable, curTasks, connected)
    else
      var sheets := WithLocal(s0.items, ls);
      var tasks := WithLocal(t0.items, lt);
      if writable then
        StartupResult(sheets, tasks, storage[SheetsKey := sheets][TasksKey := tasks], connected)
      else
        // the first `localStorage.setItem` throws after both collections were set
        Recover(storage, writable, tasks, connected)
  }

  /** The browser storage holds exactly the two collections in memory. */
  predicate Mirrors(r: StartupResult) {
    SheetsKey in r.storage && r.storage[SheetsKey] == r.sheets
    && TasksKey in r.storage && r.storage[TasksKey] == r.tasks
  }

  /** With working storage, every path of the load ends with browser storage equal to the
      collections in memory. */
  lemma StartupPersists(probe: Probe, was: bool, ss: Fetched, ts: Fetched, ls: LocalFile,
                        lt: LocalFile, storage: map<string, seq<Record>>, curTasks: seq<Record>)
    ensures Mirrors(Startup(probe, was, ss, ts, ls, lt, storage, true, curTasks))
  {
  }

  /** A non-empty server list is taken as it is, whatever the local file holds; an empty one
      is replaced by the local file. */
  lemma StartupServerFirst(x: seq<Record>, y: seq<Record>, was: bool, ls: LocalFile, lt: LocalFile,
                           storage: map<string, seq<Record>>, writable: bool, curTasks: seq<Record>)
    requires writable
    ensures var r := Startup(HealthOk, was, Fetched(true, JsonArray(x)), Fetched(true, JsonArray(y)),
                             ls, lt, storage, writable, curTasks);
            r.connected && r.sheets == WithLocal(x, ls) && r.tasks == WithLocal(y, lt)
    ensures x != [] ==>
      Startup(HealthOk, was, Fetched(true, JsonArray(x)), Fetched(true, JsonArray(y)),
              ls, lt, storage, writable, curTasks).sheets == x
  {
  }

  /** With working storage each collection's source is chosen independently of the other
      collection's local file. */
  lemma {:induction false} StartupSourcesIndependent(probe: Probe, was: bool, ss: Fetched, ts: Fetched,
                        ls: LocalFile, ls': LocalFile, lt: LocalFile, lt': LocalFile,
                        storage: map<string, seq<Record>>, curTasks: seq<Record>)
    ensures Startup(probe, was, ss, ts, ls, lt, storage, true, curTasks).sheets
         == Startup(probe, was, ss, ts, ls, lt', storage, true, curTasks).sheets
    ensures Startup(probe, was, ss, ts, ls, lt, storage, true, curTasks).tasks
         == Startup(probe, was, ss, ts, ls', lt, storage, true, curTasks).tasks
  {
  }

  /** A network failure of the tasks GET discards the server's sheets as well (both GETs share
      one `try`), so the sheets come from the local file. */
  lemma StartupTasksFailureDiscardsSheets(x: seq<Record>, y: seq<Record>, was: bool,
                                          lt: LocalFile, storage: map<string, seq<Record>>,
                                          curTasks: seq<Record>)
    requires x != [] && y != [] && x != y
    ensures Startup(HealthOk, was, Fetched(true, JsonArray(x)), FetchFailed,
                    FileItems(y), lt, storage, true, curTasks).sheets == y
  {
  }

  /** Server unreachable and no local files: both collections load EMPTY; the built-in data is
      used only on the error path. */
  lemma StartupOfflineLoadsEmpty(was: bool, ss: Fetched, ts: Fetched,
                                 storage: map<string, seq<Record>>, curTasks: seq<Record>)
    ensures var r := Startup(HealthUnreachable, was, ss, ts, Unreadable, Unreadable, storage, true, curTasks);
            r.sheets == [] && r.tasks == [] && !r.connected
  {
  }

  /** A `null` server body sends the load to the error path: each collection comes from
      browser storage when present, otherwise from the built-in data. */
  lemma StartupErrorPathRestores(ts: Fetched, was: bool, ls: LocalFile, lt: LocalFile,
                                 storage: map<string, seq<Record>>, writable: bool,
                                 curTasks: seq<Record>)
    requires ts.Fetched? && (writable || SheetsKey in storage)
    ensures var r := Startup(HealthOk, was, Fetched(true, JsonNull), ts, ls, lt, storage, writable, curTasks);
            && r.sheets == (if SheetsKey in storage then storage[SheetsKey] else FallbackSheets)
            && r.tasks == (if TasksKey in storage then storage[TasksKey] else FallbackTasks)
  {
  }

  /** What a page form submit does: nothing (the guard fails), throw (a `.trim()` on a
      value that is not a string), or go ahead with the trimmed fields. */
  datatype Submission = Ignored | Threw | Ready(fields: Record)

  // ---------------------------------------------------------------------------
  // The provider
  // ---------------------------------------------------------------------------

  class DataProvider {
    var sheets: seq<Record>
    var tasks: seq<Record>
    var loading: bool
    var serverConnected: bool
    /** Browser storage, each entry already parsed. */
    var storage: map<string, seq<Record>>
    /** Every POST sent to the remote API, in order. */
    var outbox: seq<Push>
    /** The configured API base URL. */
    const apiBaseUrl: string
    /** Whether browser storage accepts writes (false when it is disabled or full). */
    const storageWritable: bool

    constructor (apiBaseUrl: string, storage: map<string, seq<Record>>, storageWritable: bool)
      ensures sheets == [] && tasks == [] && loading && !serverConnected
      ensures this.storage == storage && outbox == []
      ensures this.apiBaseUrl == apiBaseUrl && this.storageWritable == storageWritable
    {
      sheets, tasks, loading, serverConnected := [], [], true, false;
      this.storage, outbox := storage, [];
      this.apiBaseUrl, this.storageWritable := apiBaseUrl, storageWritable;
    }

    /** Browser storage holds exactly the collections in memory. */
    predicate Persisted()
      reads this
    {
      Mirrors(StartupResult(sheets, tasks, storage, serverConnected))
    }

    /** The state after a mutation committed `list` to collection `kind`. */
    twostate predicate Committed(kind: Kind, list: seq<Record>)
      reads this
    {
      && (if kind == SheetsKind then sheets == list && tasks == old(tasks)
          else tasks == list && sheets == old(sheets))
      && storage == (if storageWritable then old(storage)[StorageKey(kind) := list] else old(storage))
      && outbox == old(outbox) +
           (if storageWritable && serverConnected then [Push(PushUrl(apiBaseUrl, kind), Payload(kind, list))]
            else [])
    }

    /** `checkServerConnection`: true only on a 2xx health answer. */
    method CheckServerConnection(probe: Probe) returns (connected: bool)
      modifies this`serverConnected
      ensures connected <==> probe == HealthOk
      ensures serverConnected == ConnectedAfter(probe, old(serverConnected))
    {
      match probe
      case HealthOk =>
        serverConnected := true;
        connected := true;
      case HealthNotOk =>
        // the function falls off its end: `undefined`, and the flag is left alone
        connected := false;
      case HealthUnreachable =>
        serverConnected := false;
        connected := false;
    }

    /** `loadData`: server first, then the local JSON file, per collection; on any throw,
        browser storage or the built-in data; `loading` is false at the end on every path. */
    method LoadData(probe: Probe, ss: Fetched, ts: Fetched, ls: LocalFile, lt: LocalFile)
      modifies this`sheets, this`tasks, this`loading, this`serverConnected, this`storage
      ensures var r := Startup(probe, old(serverConnected), ss, ts, ls, lt, old(storage),
                               storageWritable, old(tasks));
              sheets == r.sheets && tasks == r.tasks && storage == r.storage
              && serverConnected == r.connected
      ensures !loading
    {
      loading := true;
      var isServerConnected := CheckServerConnection(probe);
      var sheetsData: Loaded := Loaded([]);
      var tasksData: Loaded := Loaded([]);
      if isServerConnected {
        sheetsData, tasksData := FetchFromServer(ss, ts);
      }
      SettleCollections(sheetsData, tasksData, ls, lt);
      loading := false;
    }

    /** The local-file fallback and the storage writes of `loadData`, and its `catch` branch. */
    method SettleCollections(sheetsData: Loaded, tasksData: Loaded, ls: LocalFile, lt: LocalFile)
      modifies this`sheets, this`tasks, this`storage
      ensures var r := Settle(sheetsData, tasksData, ls, lt, old(storage), storageWritable,
                              old(tasks), serverConnected);
              sheets == r.sheets && tasks == r.tasks && storage == r.storage
    {
      if sheetsData.LoadedNull? || tasksData.LoadedNull? {
        RecoverFromStorage();
      } else {
        var sheetsItems := sheetsData.items;
        var tasksItems := tasksData.items;
        if sheetsItems == [] && ls.FileItems? {
          sheetsItems := ls.items;
        }
        if tasksItems == [] && lt.FileItems? {
          tasksItems := lt.items;
        }
        sheets := sheetsItems;
        tasks := tasksItems;
        if storageWritable {
          storage := storage[SheetsKey := sheets][TasksKey := tasks];
        } else {
          // the first `setItem` throws
          RecoverFromStorage();
        }
      }
    }

    /** The two server GETs and their `.json()` reads, inside one `try`. */
    static method FetchFromServer(ss: Fetched, ts: Fetched) returns (sheetsData: Loaded, tasksData: Loaded)
      ensures (sheetsData, tasksData) == ServerPhase(ss, ts)
    {
      sheetsData, tasksData := Loaded([]), Loaded([]);
      if ss.FetchFailed? || ts.FetchFailed? {
        return;
      }
      if ss.ok {
        match ss.body
        case Unparsable => return;
        case JsonNull => sheetsData := LoadedNull;
        case JsonArray(x) => sheetsData := Loaded(x);
      }
      if ts.ok {
        match ts.body
        case Unparsable => return;
        case JsonNull => tasksData := LoadedNull;
        case JsonArray(y) => tasksData := Loaded(y);
      }
    }

    /** The `catch` branch of `loadData`. */
    method RecoverFromStorage()
      modifies this`sheets, this`tasks, this`storage
      ensures var r := Recover(old(storage), storageWritable, old(tasks), serverConnected);
              sheets == r.sheets && tasks == r.tasks && storage == r.storage
    {
      if SheetsKey in storage {
        sheets := storage[SheetsKey];
      } else {
        sheets := FallbackSheets;
        if !storageWritable {
          // `setItem` throws out of the catch branch
          return;
        }
        storage := storage[SheetsKey := FallbackSheets];
      }
      if TasksKey in storage {
        tasks := storage[TasksKey];
      } else {
        tasks := FallbackTasks;
        if storageWritable {
          storage := storage[TasksKey := FallbackTasks];
        }
      }
    }

    /** `updateJsonFiles`: a push is sent only while connected; true only when it was sent
        and answered with a 2xx status. */
    method UpdateJsonFiles(kind: Kind, data: seq<Record>, outcome: PushOutcome) returns (ok: bool)
      modifies this`outbox
      ensures ok <==> serverConnected && outcome == Accepted
      ensures outbox == old(outbox) +
        (if serverConnected then [Push(PushUrl(apiBaseUrl, kind), Payload(kind, data))] else [])
    {
      if serverConnected {
        outbox := outbox + [Push(PushUrl(apiBaseUrl, kind), Payload(kind, data))];
        ok := outcome == Accepted;
      } else {
        ok := false;
      }
    }

    /** `updateSheetsData`: memory, then browser storage, then the push; a storage write that
        throws skips the push. */
    method UpdateSheetsData(list: seq<Record>, outcome: PushOutcome)
      modifies this`sheets, this`storage, this`outbox
      ensures Committed(SheetsKind, list)
      ensures old(Persisted()) && storageWritable ==> Persisted()
    {
      sheets := list;
      if storageWritable {
        storage := storage[SheetsKey := list];
        var pushed := UpdateJsonFiles(SheetsKind, list, outcome);
      }
    }

    /** `updateTasksData`, the same pipeline for the tasks. */
    method UpdateTasksData(list: seq<Record>, outcome: PushOutcome)
      modifies this`tasks, this`storage, this`outbox
      ensures Committed(TasksKind, list)
      ensures old(Persisted()) && storageWritable ==> Persisted()
    {
      tasks := list;
      if storageWritable {
        storage := storage[TasksKey := list];
        var pushed := UpdateJsonFiles(TasksKind, list, outcome);
      }
    }

    /** `addSheet`, with `now` standing for `Date.now()`. */
    method AddSheet(input: Record, now: int, outcome: PushOutcome)
      modifies this`sheets, this`storage, this`outbox
      ensures Committed(SheetsKind, Appended(old(sheets), input, now))
      ensures old(Persisted()) && storageWritable ==> Persisted()
    {
      UpdateSheetsData(Appended(sheets, input, now), outcome);
    }

    method RemoveSheet(id: Value, outcome: PushOutcome)
      modifies this`sheets, this`storage, this`outbox
      ensures Committed(SheetsKind, WithoutId(old(sheets), id))
      ensures old(Persisted()) && storageWritable ==> Persisted()
    {
      UpdateSheetsData(WithoutId(sheets, id), outcome);
    }

    method UpdateSheet(id: Value, updates: Record, outcome: PushOutcome)
      modifies this`sheets, this`storage, this`outbox
      ensures Committed(SheetsKind, SheetsUpdated(old(sheets), id, updates))
      ensures old(Persisted()) && storageWritable ==> Persisted()
    {
      UpdateSheetsData(SheetsUpdated(sheets, id, updates), outcome);
    }

    /** `addTask`, with `now` standing for `Date.now()`. */
    method AddTask(input: Record, now: int, outcome: PushOutcome)
      modifies this`tasks, this`storage, this`outbox
      ensures Committed(TasksKind, Appended(old(tasks), input, now))
      ensures old(Persisted()) && storageWritable ==> Persisted()
    {
      UpdateTasksData(Appended(tasks, input, now), outcome);
    }

    method ToggleTask(id: Value, outcome: PushOutcome)
      modifies this`tasks, this`storage, this`outbox
      ensures Committed(TasksKind, TasksToggled(old(tasks), id))
      ensures old(Persisted()) && storageWritable ==> Persisted()
    {
      UpdateTasksData(TasksToggled(tasks, id), outcome);
    }

    method RemoveTask(id: Value, outcome: PushOutcome)
      modifies this`tasks, this`storage, this`outbox
      ensures Committed(TasksKind, WithoutId(old(tasks), id))
      ensures old(Persisted()) && storageWritable ==> Persisted()
    {
      UpdateTasksData(WithoutId(tasks, id), outcome);
    }

    method UpdateTask(id: Value, updates: Record, outcome: PushOutcome)
      modifies this`tasks, this`storage, this`outbox
      ensures Committed(TasksKind, TasksUpdated(old(tasks), id, updates))
      ensures old(Persisted()) && storageWritable ==> Persisted()
    {
      UpdateTasksData(TasksUpdated(tasks, id, updates), outcome);
    }
  }
}
