/** The HTTP layer of the application: the `ApiError` class, the request
    wrapper that classifies every failure into an `ApiError`, and the request
    each API function issues. `fetch` and `response.json()` are not run: their
    outcome is an input (`FetchOutcome`). */
module UsersApi {
  import opened JsValues
  import opened JsText

  /** `new ApiError(message, status, endpoint)`; `name` is always "ApiError". */
  datatype ApiError = ApiError(message: string, status: int, endpoint: string, name: string)

  function NewApiError(message: string, status: int, endpoint: string): (e: ApiError)
    ensures e.name == "ApiError"
    ensures e.message == message && e.status == status && e.endpoint == endpoint
  {
    ApiError(message, status, endpoint, "ApiError")
  }

  /** A value thrown inside the request's `try` block. */
  datatype Thrown =
    | ThrownApiError(error: ApiError)  // an `ApiError` instance
    | ThrownError(message: string)     // any other `Error` instance (TypeError, SyntaxError, ...)
    | ThrownValue                      // a thrown value that is not an `Error`

  /** What `await response.json()` does. */
  datatype BodyOutcome = Parsed(value: Json) | ParseThrew(thrown: Thrown)

  datatype Response = Response(ok: bool, status: int, statusText: string, body: BodyOutcome)

  /** What `await fetch(url, init)` does. */
  datatype FetchOutcome = Responded(response: Response) | FetchThrew(thrown: Thrown)

  /** How the `try` block of `apiRequest` completes. */
  datatype Completion = Normal(value: Json) | Abrupt(thrown: Thrown)

  /** Fetch; a non-OK response throws an HTTP `ApiError`; otherwise the body is parsed. */
  function TryBlock(url: string, outcome: FetchOutcome): Completion
  {
    match outcome
    case FetchThrew(t) => Abrupt(t)
    case Responded(resp) =>
      if !resp.ok then
        Abrupt(ThrownApiError(NewApiError("Request failed: " + resp.statusText, resp.status, url)))
      else match resp.body
        case Parsed(v) => Normal(v)
        case ParseThrew(t) => Abrupt(t)
  }

  /** The `catch` block: an `ApiError` goes on unchanged, anything else becomes a
      status-0 network error for this url. */
  function CatchBlock(url: string, t: Thrown): (e: ApiError)
    ensures t.ThrownApiError? ==> e == t.error
    ensures !t.ThrownApiError? ==> e.status == 0 && e.endpoint == url && e.name == "ApiError"
  {
    match t
    case ThrownApiError(err) => err
    case ThrownError(msg) => NewApiError("Network error: " + msg, 0, url)
    case ThrownValue => NewApiError("Network error: Unknown error", 0, url)
  }

  /** `apiRequest(url, options)`: resolves with the parsed body of an OK response
      and rejects with an `ApiError` in every other case. */
  function ApiRequest(url: string, outcome: FetchOutcome): (r: Result<Json, ApiError>)
    ensures r.Ok? <==> outcome.Responded? && outcome.response.ok && outcome.response.body.Parsed?
    ensures r.Ok? ==> r.value == outcome.response.body.value
  {
    match TryBlock(url, outcome)
    case Normal(v) => Ok(v)
    case Abrupt(t) => Err(CatchBlock(url, t))
  }

  /** A non-OK response rejects with its own HTTP status, never re-wrapped as status 0. */
  lemma HttpErrorKeepsStatus(url: string, resp: Response)
    requires !resp.ok
    ensures ApiRequest(url, Responded(resp))
         == Err(ApiError("Request failed: " + resp.statusText, resp.status, url, "ApiError"))
  {
  }

  /** A failed fetch or an unreadable body of an OK response is a status-0 network error. */
  lemma NetworkErrorWrapped(url: string, outcome: FetchOutcome, msg: string)
    requires outcome == FetchThrew(ThrownError(msg))
          || (outcome.Responded? && outcome.response.ok && outcome.response.body == ParseThrew(ThrownError(msg)))
    ensures ApiRequest(url, outcome) == Err(ApiError("Network error: " + msg, 0, url, "ApiError"))
  {
  }

  lemma UnknownErrorWrapped(url: string, outcome: FetchOutcome)
    requires outcome == FetchThrew(ThrownValue)
          || (outcome.Responded? && outcome.response.ok && outcome.response.body == ParseThrew(ThrownValue))
    ensures ApiRequest(url, outcome) == Err(ApiError("Network error: Unknown error", 0, url, "ApiError"))
  {
  }

  /** True when neither `fetch` nor `response.json()` throws an `ApiError` themselves
      (they are platform code, which never does). */
  predicate NoForeignApiError(outcome: FetchOutcome)
  {
    match outcome
    case FetchThrew(t) => !t.ThrownApiError?
    case Responded(resp) => !(resp.body.ParseThrew? && resp.body.thrown.ThrownApiError?)
  }

  /** Every rejection names the requested url and is an `ApiError`; after a
      non-OK response it carries that response's status, otherwise status 0. */
  lemma ErrorsCarryEndpoint(url: string, outcome: FetchOutcome)
    requires NoForeignApiError(outcome)
    ensures ApiRequest(url, outcome).Err? ==>
      var e := ApiRequest(url, outcome).error;
      && e.endpoint == url && e.name == "ApiError"
      && (if outcome.Responded? && !outcome.response.ok then e.status == outcome.response.status
          else e.status == 0)
  {
  }

  /** The options a request is made with. `None` fields are absent. */
  datatype RequestInit = RequestInit(httpMethod: Option<string>, body: Option<Json>, headers: Option<map<string, string>>)

  function HeadersOf(options: Option<RequestInit>): map<string, string>
  {
    if options.Some? && options.value.headers.Some? then options.value.headers.value else map[]
  }

  /** `{ ...options, headers: { "Content-Type": "application/json", ...options?.headers } }`:
      method and body pass through, the caller's headers are all kept and win over
      the JSON content type, and no other header is added. */
  function FetchInit(options: Option<RequestInit>): (init: RequestInit)
    ensures options.Some? ==> init.httpMethod == options.value.httpMethod && init.body == options.value.body
    ensures options.None? ==> init.httpMethod.None? && init.body.None?
    ensures init.headers.Some?
    ensures init.headers.value.Keys == {"Content-Type"} + HeadersOf(options).Keys
    ensures forall h :: h in HeadersOf(options) ==> init.headers.value[h] == HeadersOf(options)[h]
    ensures "Content-Type" !in HeadersOf(options) ==> init.headers.value["Content-Type"] == "application/json"
  {
    var merged := map["Content-Type" := "application/json"] + HeadersOf(options);
    match options
    case None => RequestInit(None, None, Some(merged))
    case Some(o) => o.(headers := Some(merged))
  }

  const BaseUrl: string := "https://dummyjson.com"

  /** A list endpoint with `limit` and `skip` written into the query string as is. */
  function ListUrl(path: string, limit: int, skip: int): string
  {
    BaseUrl + path + "?limit=" + IntToString(limit) + "&skip=" + IntToString(skip)
  }

  /** Reads `limit` and `skip` back from the text after `?limit=`. */
  function ParseListQuery(rest: string): Option<(int, int)>
  {
    var i := IndexOf(rest, '&');
    var tail := rest[i..];
    if !("&skip=" <= tail) then None
    else match (ParseInt(rest[..i]), ParseInt(tail[6..]))
      case (Some(limit), Some(skip)) => Some((limit, skip))
      case _ => None
  }

  /** Reads `limit` and `skip` back from a list url of the given path. */
  function ParseListUrl(path: string, url: string): Option<(int, int)>
  {
    var head := BaseUrl + path + "?limit=";
    if !(head <= url) then None else ParseListQuery(url[|head|..])
  }

  lemma ParseListQueryOf(limit: int, skip: int)
    ensures ParseListQuery(IntToString(limit) + "&skip=" + IntToString(skip)) == Some((limit, skip))
  {
    var a, b := IntToString(limit), IntToString(skip);
    var rest := a + ("&skip=" + b);
    assert rest == a + "&skip=" + b;
    assert '&' !in a by {
      forall k | 0 <= k < |a| ensures a[k] != '&' { }
    }
    IndexOfAfter(a, "&skip=" + b, '&');
    assert IndexOf(rest, '&') == |a|;
    assert rest[..|a|] == a;
    assert rest[|a|..] == "&skip=" + b;
    assert ("&skip=" + b)[6..] == b;
    IntToStringRoundTrip(limit);
    IntToStringRoundTrip(skip);
  }

  /** List urls carry `limit` and `skip` verbatim: both read back unchanged. */
  lemma ListUrlRoundTrip(path: string, limit: int, skip: int)
    ensures ParseListUrl(path, ListUrl(path, limit, skip)) == Some((limit, skip))
  {
    var head := BaseUrl + path + "?limit=";
    var q := IntToString(limit) + "&skip=" + IntToString(skip);
    var url := ListUrl(path, limit, skip);
    ListUrlSplits(path, limit, skip);
    assert head <= url;
    assert url[|head|..] == q;
    assert ParseListUrl(path, url) == ParseListQuery(q);
    ParseListQueryOf(limit, skip);
  }

  /** A list url is its fixed head followed by the query text. */
  lemma ListUrlSplits(path: string, limit: int, skip: int)
    ensures ListUrl(path, limit, skip)
         == (BaseUrl + path + "?limit=") + (IntToString(limit) + "&skip=" + IntToString(skip))
  {
  }

  /** The characters `encodeURIComponent` leaves unescaped, and `%` for escapes. */
  predicate UriComponentChar(c: char)
  {
    ('a' <= c <= 'z') || ('A' <= c <= 'Z') || ('0' <= c <= '9') ||
    c in {'-', '_', '.', '!', '~', '*', '\'', '(', ')', '%'}
  }

  /** What `encodeURIComponent` guarantees of its output. */
  predicate UriComponentSafe(s: string)
  {
    forall i :: 0 <= i < |s| ==> UriComponentChar(s[i])
  }

  /** A search endpoint: `encode` stands for `encodeURIComponent`. */
  function SearchUrl(path: string, encode: string -> string, query: string): string
  {
    BaseUrl + path + "?q=" + encode(query)
  }

  /** Once encoded, a search text cannot add a parameter or a fragment: the url
      has no `&` or `#` and everything after its first `?` is `q=` and the encoded text. */
  lemma SearchUrlSingleParam(path: string, encode: string -> string, query: string)
    requires '?' !in path && '&' !in path && '#' !in path
    requires UriComponentSafe(encode(query))
    ensures var url := SearchUrl(path, encode, query);
      && '&' !in url && '#' !in url
      && IndexOf(url, '?') < |url|
      && url[IndexOf(url, '?') + 1..] == "q=" + encode(query)
  {
    var e := encode(query);
    var front := BaseUrl + path;
    var url := SearchUrl(path, encode, query);
    assert '&' !in e && '#' !in e by {
      forall k | 0 <= k < |e| ensures e[k] != '&' && e[k] != '#' {
        assert UriComponentChar(e[k]);
      }
    }
    assert '?' !in BaseUrl && '&' !in BaseUrl && '#' !in BaseUrl;
    assert url == front + "?q=" + e;
    assert url == front + ("?q=" + e);
    IndexOfAfter(front, "?q=" + e, '?');
  }

  function UserUrl(id: int): string
  {
    BaseUrl + "/users/" + IntToString(id)
  }

  const AddUserUrl: string := BaseUrl + "/users/add"

  /** One call of an API function: the url and the options handed to `apiRequest`. */
  datatype Request = Request(url: string, options: Option<RequestInit>)

  function FetchUsers(limit: int, skip: int): Request
  {
    Request(ListUrl("/users", limit, skip), None)
  }

  function GetUserById(id: int): Request
  {
    Request(UserUrl(id), None)
  }

  function AddUser(newUser: Json): Request
  {
    Request(AddUserUrl, Some(RequestInit(Some("POST"), Some(newUser), None)))
  }

  function UpdateUser(id: int, updatedUser: Record): Request
  {
    Request(UserUrl(id), Some(RequestInit(Some("PUT"), Some(JObject(updatedUser)), None)))
  }

  function DeleteUser(id: int): Request
  {
    Request(UserUrl(id), Some(RequestInit(Some("DELETE"), None, None)))
  }

  function FetchPosts(limit: int, skip: int): Request
  {
    Request(ListUrl("/posts", limit, skip), None)
  }

  function FetchUserPosts(userId: int): Request
  {
    Request(BaseUrl + "/posts/user/" + IntToString(userId), None)
  }

  function FetchPostById(id: int): Request
  {
    Request(BaseUrl + "/posts/" + IntToString(id), None)
  }

  function FetchComments(postId: int): Request
  {
    Request(BaseUrl + "/posts/" + IntToString(postId) + "/comments", None)
  }

  function SearchUsers(encode: string -> string, query: string): Request
  {
    Request(SearchUrl("/users/search", encode, query), None)
  }

  function SearchPosts(encode: string -> string, query: string): Request
  {
    Request(SearchUrl("/posts/search", encode, query), None)
  }

  /** The id written between a fixed head and a fixed tail reads back from the url. */
  lemma IdInUrl(head: string, id: int, tail: string)
    ensures var url := head + IntToString(id) + tail;
      && head <= url && |head| + |tail| <= |url| && url[|url| - |tail|..] == tail
      && ParseInt(url[|head|..|url| - |tail|]) == Some(id)
  {
    var url := head + IntToString(id) + tail;
    assert url[|head|..|url| - |tail|] == IntToString(id);
    assert url[|url| - |tail|..] == tail;
    IntToStringRoundTrip(id);
  }

  /** The two list endpoints carry `limit` and `skip` verbatim. */
  lemma ApiListUrls(limit: int, skip: int)
    ensures ParseListUrl("/users", FetchUsers(limit, skip).url) == Some((limit, skip))
    ensures ParseListUrl("/posts", FetchPosts(limit, skip).url) == Some((limit, skip))
  {
    ListUrlRoundTrip("/users", limit, skip);
    ListUrlRoundTrip("/posts", limit, skip);
  }

  /** Every single-entity read names its id verbatim after its fixed path: the
      id reads back from the url, and the comments url ends in `/comments`. */
  lemma ApiIdUrls(id: int)
    ensures var url, head := GetUserById(id).url, BaseUrl + "/users/";
      head <= url && ParseInt(url[|head|..]) == Some(id)
    ensures var url, head := FetchUserPosts(id).url, BaseUrl + "/posts/user/";
      head <= url && ParseInt(url[|head|..]) == Some(id)
    ensures var url, head := FetchPostById(id).url, BaseUrl + "/posts/";
      head <= url && ParseInt(url[|head|..]) == Some(id)
    ensures var url, head, tail := FetchComments(id).url, BaseUrl + "/posts/", "/comments";
      && head <= url && |head| + |tail| <= |url| && url[|url| - |tail|..] == tail
      && ParseInt(url[|head|..|url| - |tail|]) == Some(id)
  {
    IdInUrl(BaseUrl + "/users/", id, "");
    assert GetUserById(id).url == BaseUrl + "/users/" + IntToString(id) + "";
    IdInUrl(BaseUrl + "/posts/user/", id, "");
    assert FetchUserPosts(id).url == BaseUrl + "/posts/user/" + IntToString(id) + "";
    IdInUrl(BaseUrl + "/posts/", id, "");
    assert FetchPostById(id).url == BaseUrl + "/posts/" + IntToString(id) + "";
    IdInUrl(BaseUrl + "/posts/", id, "/comments");
  }

  /** Both search endpoints carry the encoded text as their only parameter. */
  lemma ApiSearchUrls(encode: string -> string, query: string)
    requires UriComponentSafe(encode(query))
    ensures var url := SearchUsers(encode, query).url;
      && '&' !in url && '#' !in url && IndexOf(url, '?') < |url|
      && url[..IndexOf(url, '?')] == BaseUrl + "/users/search"
      && url[IndexOf(url, '?') + 1..] == "q=" + encode(query)
    ensures var url := SearchPosts(encode, query).url;
      && '&' !in url && '#' !in url && IndexOf(url, '?') < |url|
      && url[..IndexOf(url, '?')] == BaseUrl + "/posts/search"
      && url[IndexOf(url, '?') + 1..] == "q=" + encode(query)
  {
    SearchUrlSingleParam("/users/search", encode, query);
    SearchUrlSingleParam("/posts/search", encode, query);
  }

  /** Issues a request: its result is what `apiRequest` makes of the fetch outcome. */
  function Send(req: Request, outcome: FetchOutcome): Result<Json, ApiError>
  {
    ApiRequest(req.url, outcome)
  }

  /** Every write request goes out with its method and a JSON content type. */
  lemma WritesSendJson(id: int, newUser: Json, patch: Record)
    ensures FetchInit(AddUser(newUser).options).httpMethod == Some("POST")
    ensures FetchInit(UpdateUser(id, patch).options).httpMethod == Some("PUT")
    ensures FetchInit(DeleteUser(id).options).httpMethod == Some("DELETE")
    ensures FetchInit(AddUser(newUser).options).headers == Some(map["Content-Type" := "application/json"])
    ensures FetchInit(UpdateUser(id, patch).options).headers == Some(map["Content-Type" := "application/json"])
  {
    var json := map["Content-Type" := "application/json"];
    assert json + map[] == json;
  }
}
