/** How a client push reaches the server: the URL `updateJsonFiles` posts to, the route the
    server gives that URL's path, and what the server then stores. */
module Sync {
  import opened Js
  import opened DataContext
  import opened Server

  /** The handler the server runs for each kind of push. */
  function UpdateHandler(kind: Kind): Handler {
    if kind == SheetsKind then UpdateSheets else UpdateTasks
  }

  /** The push URL as evidently intended: the base URL with its trailing slash stripped, as
      the health check and the loads build theirs. */
  function CorrectedPushUrl(base: string, kind: Kind): (url: string)
    ensures base != [] && base[|base| - 1] == '/' ==> url == PushUrl(base[..|base| - 1], kind)
    ensures (base == [] || base[|base| - 1] != '/') ==> url == PushUrl(base, kind)
  {
    StripTrailingSlash(base) + Endpoint(kind)
  }

  /** The path of a request to `url` on a server whose origin (scheme, host and port, no
      path) is `origin`. */
  function RequestPath(origin: string, url: string): (path: string)
    requires |origin| <= |url| && url[..|origin|] == origin
    ensures origin + path == url
  {
    url[|origin|..]
  }

  /** The update endpoints route exactly, and with a doubled leading slash not at all. */
  lemma RouteOfEndpoint(kind: Kind)
    ensures Route("POST", Endpoint(kind)) == UpdateHandler(kind)
    ensures Route("POST", "/" + Endpoint(kind)) == NotFound
  {
    var e, doubled := Endpoint(kind), "/" + Endpoint(kind);
    assert ToLower(e) == e;
    assert ToLower(doubled)[1] == '/' != "/api/update-sheets"[1] == "/api/update-tasks"[1];
  }

  /** As written: with a base URL that ends in a slash, every push goes to a path with a
      doubled slash, which the server answers with 404. */
  lemma AsWrittenPushMisses(origin: string, kind: Kind)
    ensures var url := PushUrl(origin + "/", kind);
            |origin| <= |url| && url[..|origin|] == origin
            && RequestPath(origin, url) == "/" + Endpoint(kind)
            && Route("POST", RequestPath(origin, url)) == NotFound
  {
    var url := PushUrl(origin + "/", kind);
    assert url == origin + ("/" + Endpoint(kind));
    assert url[..|origin|] == origin;
    RouteOfEndpoint(kind);
  }

  /** The configuration that shows it. */
  lemma AsWrittenPushMissesLocalhost()
    ensures Route("POST", RequestPath("http://localhost:3001",
                                      PushUrl("http://localhost:3001/", SheetsKind))) == NotFound
  {
    AsWrittenPushMisses("http://localhost:3001", SheetsKind);
  }

  /** Corrected: the push URL does not depend on a trailing slash of the base URL, and its
      path reaches the update handler. */
  lemma PushUrlReachesHandler(origin: string, kind: Kind)
    requires origin == [] || origin[|origin| - 1] != '/'
    ensures CorrectedPushUrl(origin + "/", kind) == CorrectedPushUrl(origin, kind) == origin + Endpoint(kind)
    ensures Route("POST", RequestPath(origin, CorrectedPushUrl(origin, kind))) == UpdateHandler(kind)
    ensures Route("POST", RequestPath(origin, CorrectedPushUrl(origin + "/", kind))) == UpdateHandler(kind)
  {
    assert (origin + "/")[..|origin|] == origin;
    var url := origin + Endpoint(kind);
    assert url[..|origin|] == origin;
    assert RequestPath(origin, url) == Endpoint(kind);
    RouteOfEndpoint(kind);
  }

  /** The server's check for a record of the given kind. */
  predicate ServerAccepts(kind: Kind, r: Record) {
    if kind == SheetsKind then ValidSheet(Obj(r)) else ValidTask(Obj(r))
  }

  /** A pushed payload carries the client's list as an array under the kind's key, and when
      every record passes the server's check the server keeps all of them, in order: the
      server's collection then equals the client's. */
  lemma PushedListIsStored(kind: Kind, list: seq<Record>)
    requires forall i :: 0 <= i < |list| ==> ServerAccepts(kind, list[i])
    ensures kind == SheetsKind ==>
              ReadOwn(Payload(kind, list), "sheets") == Some(Arr(AsValues(list)))
              && ValidSheets(AsValues(list)) == AsValues(list)
    ensures kind == TasksKind ==>
              ReadOwn(Payload(kind, list), "tasks") == Some(Arr(AsValues(list)))
              && ValidTasks(AsValues(list)) == AsValues(list)
  {
    var items := AsValues(list);
    if kind == SheetsKind {
      assert forall i :: 0 <= i < |items| ==> ValidSheet(items[i]);
    } else {
      assert forall i :: 0 <= i < |items| ==> ValidTask(items[i]);
    }
  }
}
