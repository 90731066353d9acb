/** The daemon's HTTP fallbacks: the portal asset resolution for non-API paths, over the
    set of embedded asset names, and the JSON 404 for unknown API routes. */
module Console {
  import opened Wrappers
  import opened Api

  const STATUS_OK: int := 200
  const STATUS_NOT_FOUND: int := 404

  const PORTAL_UNAVAILABLE: string := "Portal not available. Rebuild with: cargo clean && cargo build --release"

  /** Whether the response type is guessed from the asset's name or fixed to `text/html`. */
  datatype ContentType = GuessedFromPath | TextHtml

  datatype ConsoleResponse = Served(asset: string, contentType: ContentType) | PortalUnavailable

  function Status(r: ConsoleResponse): int {
    if r.Served? then STATUS_OK else STATUS_NOT_FOUND
  }

  /** `trim_start_matches('/')`. */
  function TrimLeadingSlashes(p: string): (r: string)
    ensures |r| <= |p| && r == p[|p| - |r|..]
    ensures |r| == 0 || r[0] != '/'
    ensures forall i :: 0 <= i < |p| - |r| ==> p[i] == '/'
    decreases |p|
  {
    if |p| > 0 && p[0] == '/' then TrimLeadingSlashes(p[1..]) else p
  }

  /** The request path names an asset exactly. */
  predicate ExactHit(path: string, assets: set<string>) {
    path != "" && path in assets
  }

  /** The dot-free request path names a page stored as `<path>.html`. */
  predicate HtmlHit(path: string, assets: set<string>) {
    path != "" && '.' !in path && path + ".html" in assets
  }

  /** The request path names a directory holding `index.html`. */
  predicate IndexHit(path: string, assets: set<string>) {
    path != "" && path + "/index.html" in assets
  }

  /** The resolution chain for a path with its leading slashes removed: the exact asset,
      then `<path>.html` for a dot-free path, then `<path>/index.html`, then `index.html`;
      an empty path goes straight to `index.html`. */
  function ServePath(path: string, assets: set<string>): (r: ConsoleResponse)
    ensures r.Served? ==> r.asset in assets
    ensures ExactHit(path, assets) ==> r == Served(path, GuessedFromPath)
    ensures !ExactHit(path, assets) && HtmlHit(path, assets) ==> r == Served(path + ".html", TextHtml)
    ensures !ExactHit(path, assets) && !HtmlHit(path, assets) && IndexHit(path, assets) ==>
      r == Served(path + "/index.html", TextHtml)
    ensures !ExactHit(path, assets) && !HtmlHit(path, assets) && !IndexHit(path, assets) ==>
      r == (if "index.html" in assets then Served("index.html", TextHtml) else PortalUnavailable)
    ensures path == "" ==> r == (if "index.html" in assets then Served("index.html", TextHtml) else PortalUnavailable)
  {
    if ExactHit(path, assets) then Served(path, GuessedFromPath)
    else if HtmlHit(path, assets) then Served(path + ".html", TextHtml)
    else if IndexHit(path, assets) then Served(path + "/index.html", TextHtml)
    else if "index.html" in assets then Served("index.html", TextHtml)
    else PortalUnavailable
  }

  /** `serve_console`: resolve the request path with its leading slashes removed. */
  function ServeConsole(uriPath: string, assets: set<string>): ConsoleResponse {
    ServePath(TrimLeadingSlashes(uriPath), assets)
  }

  /** The asset names tried for a trimmed path, in order, with the content type each is served with. */
  function Candidates(path: string): seq<(string, ContentType)> {
    (if path != "" then [(path, GuessedFromPath)] else [])
    + (if path != "" && '.' !in path then [(path + ".html", TextHtml)] else [])
    + (if path != "" then [(path + "/index.html", TextHtml)] else [])
    + [("index.html", TextHtml)]
  }

  /** The first candidate that is an asset. */
  function FirstAvailable(candidates: seq<(string, ContentType)>, assets: set<string>): ConsoleResponse
    decreases |candidates|
  {
    if |candidates| == 0 then PortalUnavailable
    else if candidates[0].0 in assets then Served(candidates[0].0, candidates[0].1)
    else FirstAvailable(candidates[1..], assets)
  }

  /** `serve_console` 404s exactly when none of the candidates for the trimmed path exists. */
  lemma ServesFirstCandidate(uriPath: string, assets: set<string>, path: string)
    requires path == TrimLeadingSlashes(uriPath)
    ensures ServeConsole(uriPath, assets).PortalUnavailable? <==>
      forall i :: 0 <= i < |Candidates(path)| ==> Candidates(path)[i].0 !in assets
  {
    ChainIsFirstAvailable(path, assets);
    FirstAvailableNone(Candidates(path), assets);
  }

  /** The resolution chain serves the first candidate that is an asset. */
  lemma ChainIsFirstAvailable(path: string, assets: set<string>)
    ensures ServePath(path, assets) == FirstAvailable(Candidates(path), assets)
  {
    var last := [("index.html", TextHtml)];
    assert FirstAvailable(last, assets) == (if "index.html" in assets then Served("index.html", TextHtml) else PortalUnavailable) by {
      assert last[1..] == [];
    }
    var tail := [(path + "/index.html", TextHtml)] + last;
    assert tail[1..] == last;
    if path == "" {
      assert Candidates(path) == last;
    } else if '.' !in path {
      var mid := [(path + ".html", TextHtml)] + tail;
      assert mid[1..] == tail;
      var cs := [(path, GuessedFromPath)] + mid;
      assert cs[1..] == mid;
      assert FirstAvailable(tail, assets) == (if IndexHit(path, assets) then Served(path + "/index.html", TextHtml) else FirstAvailable(last, assets)) by {
        assert FirstAvailable(tail, assets) == (if tail[0].0 in assets then Served(tail[0].0, tail[0].1) else FirstAvailable(last, assets));
      }
      assert Candidates(path) == cs;
    } else {
      var cs := [(path, GuessedFromPath)] + tail;
      assert cs[1..] == tail;
      assert Candidates(path) == cs;
    }
  }

  /** No candidate is served exactly when none is an asset. */
  lemma {:induction false} FirstAvailableNone(candidates: seq<(string, ContentType)>, assets: set<string>)
    ensures FirstAvailable(candidates, assets).PortalUnavailable? <==>
      forall i :: 0 <= i < |candidates| ==> candidates[i].0 !in assets
    decreases |candidates|
  {
    if |candidates| > 0 {
      FirstAvailableNone(candidates[1..], assets);
      assert forall i :: 1 <= i < |candidates| ==> candidates[i] == candidates[1..][i - 1];
    }
  }

  /** The JSON reply to an unknown `/api` route, for the path the API router saw. */
  datatype ApiReply = ApiReply(status: int, body: JsValue)

  function ApiFallback(path: string): (r: ApiReply)
    ensures r.status == STATUS_NOT_FOUND && !IsOk(r.status)
    ensures !r.body.JsNull? && GetProperty(r.body, "error") == Defined(JsString("Not found: " + path))
  {
    ApiReply(STATUS_NOT_FOUND, JsObject(map["error" := JsString("Not found: " + path)]))
  }

  /** The portal's `request` reports an unknown API route as `Not found: <path>`. */
  lemma UnknownRouteSurfacesInPortal(requestPath: string, fetch: string -> FetchReply, routePath: string)
    requires fetch(RequestUrl(requestPath)) ==
      Responded(HttpResponse(ApiFallback(routePath).status, Json(ApiFallback(routePath).body)))
    ensures Request(requestPath, fetch) == Err(HttpError(STATUS_NOT_FOUND, "Not found: " + routePath))
  {
  }
}
