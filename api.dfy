/** The API client (src/services/api.js): the base URL, the headers every request carries,
    how a response becomes a value or an error, the list URLs with their optional query
    string, and the body of the create and update requests. */
module Api {
  import opened Common
  import opened Js
  import Storage

  /** The base URL when the build sets none. */
  const DefaultApiBase := "http://localhost:5000"

  /** `import.meta.env.VITE_API_URL || 'http://localhost:5000'` */
  function ApiBase(configured: Option<string>): (r: string)
    ensures Truthy(configured) ==> r == configured.value
    ensures !Truthy(configured) ==> r == DefaultApiBase
    ensures r != ""
  {
    OrElse(configured, DefaultApiBase)
  }

  /** The members of `authAPI`: register, login, getProfile and updateProfile. */
  const AuthApiMembers: set<string> := {"register", "login", "getProfile", "updateProfile"}

  /** `authAPI` has the four endpoints and no `socialAuth`. */
  lemma SocialAuthUndefined()
    ensures "socialAuth" !in AuthApiMembers
    ensures "register" in AuthApiMembers && "login" in AuthApiMembers
  {
  }

  // ---------------------------------------------------------------------------
  // Headers
  // ---------------------------------------------------------------------------

  /** `createHeaders(includeAuth, isFormData)`: a JSON content type unless the body is form
      data, and a bearer header exactly when asked for and a token is stored; nothing else. */
  method CreateHeaders(storage: Storage.LocalStorage, includeAuth: bool, isFormData: bool)
    returns (headers: map<string, string>)
    ensures "Content-Type" in headers <==> !isFormData
    ensures "Content-Type" in headers ==> headers["Content-Type"] == "application/json"
    ensures "Authorization" in headers <==> includeAuth && Truthy(storage.GetItem("authToken"))
    ensures "Authorization" in headers ==> headers["Authorization"] == "Bearer " + storage.items["authToken"]
    ensures forall k :: k in headers ==> k == "Content-Type" || k == "Authorization"
  {
    headers := map[];
    if !isFormData {
      headers := headers["Content-Type" := "application/json"];
    }
    if includeAuth {
      var token := storage.GetItem("authToken");
      if Truthy(token) {
        headers := headers["Authorization" := "Bearer " + token.value];
      }
    }
  }

  // ---------------------------------------------------------------------------
  // Responses
  // ---------------------------------------------------------------------------

  /** A response body: JSON text with its value, or text `response.json()` rejects. */
  datatype Body = Json(value: Value) | NotJson

  datatype Response = Response(ok: bool, body: Body)

  /** How a request fails: an `Error` with a message; the `TypeError` of reading `message`
      off an error body that is `null`; or the `SyntaxError` of a success body that is not
      JSON. */
  datatype ApiError = Failed(message: string) | NullErrorBody | BadJson

  /** The error body `handleResponse` reads: the parsed body, or `{ message: 'An error
      occurred' }` when it does not parse. */
  function ErrorBody(body: Body): (r: Value)
    ensures body.Json? ==> r == body.value
    ensures body.NotJson? ==> r == Obj(map["message" := Str("An error occurred")])
  {
    match body
    case Json(v) => v
    case NotJson => Obj(map["message" := Str("An error occurred")])
  }

  /** `handleResponse(response)` */
  function HandleResponse(response: Response): (r: Result<Value, ApiError>)
    ensures r.Ok? <==> response.ok && response.body.Json?
    ensures r.Ok? ==> r.value == response.body.value
    ensures response.ok && response.body.NotJson? ==> r == Err(BadJson)
  {
    if response.ok then
      match response.body
      case Json(v) => Ok(v)
      case NotJson => Err(BadJson)
    else
      match Get(ErrorBody(response.body), "message")
      case None => Err(NullErrorBody)
      case Some(m) => Err(Failed(ToString(JsOr(m, Str("Request failed")))))
  }

  /** The message of a failed response: "An error occurred" when its body does not parse,
      "Request failed" when the parsed body has no truthy `message`, and that message
      otherwise; only a `null` or `undefined` body fails another way. */
  lemma ErrorMessages(body: Body)
    ensures body.NotJson? ==> HandleResponse(Response(false, body)) == Err(Failed("An error occurred"))
    ensures body.Json? && Nullish(body.value) ==> HandleResponse(Response(false, body)) == Err(NullErrorBody)
    ensures body.Json? && !Nullish(body.value) && !JsTruthy(Prop(body.value, "message")) ==>
              HandleResponse(Response(false, body)) == Err(Failed("Request failed"))
    ensures body.Json? && !Nullish(body.value) && JsTruthy(Prop(body.value, "message")) ==>
              HandleResponse(Response(false, body)) == Err(Failed(ToString(Prop(body.value, "message"))))
  {
    var e := Obj(map["message" := Str("An error occurred")]);
    assert Prop(e, "message") == Str("An error occurred");
  }

  /** A string message is the error's message unchanged. */
  lemma StringMessageKept(fields: map<string, Value>, message: string)
    requires "message" in fields && fields["message"] == Str(message) && message != ""
    ensures HandleResponse(Response(false, Json(Obj(fields)))) == Err(Failed(message))
  {
  }

  // ---------------------------------------------------------------------------
  // URLs
  // ---------------------------------------------------------------------------

  /** `${path}${queryString ? `?${queryString}` : ''}` */
  function WithQuery(path: string, query: string): (r: string)
    ensures query == "" ==> r == path
    ensures query != "" ==> r == path + "?" + query
  {
    if query != "" then path + "?" + query else path
  }

  /** The part of a URL before its first `?`, and the part after it (`None` without one). */
  function SplitQuery(url: string): (r: (string, Option<string>))
    ensures r.1.None? ==> r.0 == url && '?' !in url
    ensures r.1.Some? ==> url == r.0 + "?" + r.1.value && '?' !in r.0
  {
    if url == [] then ("", None)
    else if url[0] == '?' then ("", Some(url[1..]))
    else
      var rest := SplitQuery(url[1..]);
      assert url == [url[0]] + url[1..];
      ([url[0]] + rest.0, rest.1)
  }

  /** Splitting a URL whose path has no `?` gives back the path, and a query part exactly
      when the query string is non-empty. */
  lemma {:induction false} WithQuerySplits(path: string, query: string)
    requires '?' !in path
    ensures SplitQuery(WithQuery(path, query)) == (path, if query == "" then None else Some(query))
    decreases |path|
  {
    if path == [] {
      if query != "" {
        assert WithQuery(path, query) == "?" + query;
        assert ("?" + query)[1..] == query;
      }
    } else {
      WithQuerySplits(path[1..], query);
      var u := WithQuery(path, query);
      assert u[0] == path[0] && u[1..] == WithQuery(path[1..], query);
      assert [path[0]] + path[1..] == path;
    }
  }

  /** `postsAPI.getAll`: `/api/posts` with the serialised parameters. */
  function PostsListUrl(base: string, query: string): string {
    WithQuery(base + "/api/posts", query)
  }

  /** `usersAPI.getPosts`: `/api/users/<id>/posts` with the serialised parameters. */
  function UserPostsUrl(base: string, userId: string, query: string): string {
    WithQuery(base + "/api/users/" + userId + "/posts", query)
  }

  /** `usersAPI.getFollowers`: `/api/users/<id>/followers` with the serialised parameters. */
  function FollowersUrl(base: string, userId: string, query: string): string {
    WithQuery(base + "/api/users/" + userId + "/followers", query)
  }

  /** `usersAPI.getFollowing`: `/api/users/<id>/following` with the serialised parameters. */
  function FollowingUrl(base: string, userId: string, query: string): string {
    WithQuery(base + "/api/users/" + userId + "/following", query)
  }

  /** An empty parameter list adds no `?`; a non-empty one is exactly what follows the
      first `?`, provided the base URL and the user id contain none. */
  lemma ListUrlQueries(base: string, userId: string, query: string)
    requires '?' !in base && '?' !in userId
    ensures SplitQuery(PostsListUrl(base, query)) == (base + "/api/posts", if query == "" then None else Some(query))
    ensures SplitQuery(UserPostsUrl(base, userId, query)) == (base + "/api/users/" + userId + "/posts", if query == "" then None else Some(query))
    ensures SplitQuery(FollowersUrl(base, userId, query)) == (base + "/api/users/" + userId + "/followers", if query == "" then None else Some(query))
    ensures SplitQuery(FollowingUrl(base, userId, query)) == (base + "/api/users/" + userId + "/following", if query == "" then None else Some(query))
  {
    WithQuerySplits(base + "/api/posts", query);
    WithQuerySplits(base + "/api/users/" + userId + "/posts", query);
    WithQuerySplits(base + "/api/users/" + userId + "/followers", query);
    WithQuerySplits(base + "/api/users/" + userId + "/following", query);
  }

  // ---------------------------------------------------------------------------
  // Create and update requests
  // ---------------------------------------------------------------------------

  /** What a caller passes to `create` or `update`: a `FormData` or any other value. */
  datatype PostData = FormData(entries: seq<(string, Value)>) | Plain(value: Value)

  /** The request body: the form data itself, or the JSON serialisation of the value. */
  datatype RequestBody = FormBody(entries: seq<(string, Value)>) | JsonText(value: Value)

  datatype Request = Request(verb: string, url: string, headers: map<string, string>, body: RequestBody)

  /** The body `create` and `update` send for their data. */
  function BodyFor(data: PostData): (r: RequestBody)
    ensures data.FormData? <==> r.FormBody?
    ensures data.FormData? ==> r.entries == data.entries
    ensures data.Plain? ==> r.value == data.value
  {
    match data
    case FormData(entries) => FormBody(entries)
    case Plain(v) => JsonText(v)
  }

  /** What the backend reads back from a body: the form's entries, or the value parsed from
      the JSON text, or nothing when `JSON.stringify` gave no text (a top-level
      `undefined`). */
  function ReceivedData(body: RequestBody): Option<PostData> {
    match body
    case FormBody(entries) => Some(FormData(entries))
    case JsonText(v) =>
      var parsed := JsonRoundTrip(v);
      if parsed.Some? then Some(Plain(parsed.value)) else None
  }

  /** Form data reaches the backend as its entries; other data comes back unchanged exactly
      when it holds no `undefined`, and `undefined` itself sends no body. */
  lemma BodyForRoundTrip(data: PostData)
    ensures data.FormData? ==> ReceivedData(BodyFor(data)) == Some(data)
    ensures data.Plain? ==> (ReceivedData(BodyFor(data)) == Some(data) <==> NoUndefined(data.value))
    ensures ReceivedData(BodyFor(data)).None? <==> data == Plain(Undefined)
  {
    if data.Plain? {
      JsonRoundTripIff(data.value);
    }
  }

  /** `postsAPI.create(postData)`: an authorised POST to `/api/posts`; form data goes as is
      with no JSON content type, anything else as JSON. */
  method CreateRequest(storage: Storage.LocalStorage, configured: Option<string>, data: PostData) returns (req: Request)
    ensures req.verb == "POST" && req.url == ApiBase(configured) + "/api/posts"
    ensures !Truthy(configured) ==> req.url == "http://localhost:5000/api/posts"
    ensures req.body == BodyFor(data)
    ensures "Content-Type" in req.headers <==> data.Plain?
    ensures "Content-Type" in req.headers <==> req.body.JsonText?
    ensures "Authorization" in req.headers <==> Truthy(storage.GetItem("authToken"))
    ensures "Authorization" in req.headers ==> req.headers["Authorization"] == "Bearer " + storage.items["authToken"]
  {
    var isFormData := data.FormData?;
    var headers := CreateHeaders(storage, true, isFormData);
    var base := ApiBase(configured);
    req := Request("POST", base + "/api/posts", headers, BodyFor(data));
  }

  /** `postsAPI.update(postId, postData)`: the same choice, as a PUT to `/api/posts/<id>`. */
  method UpdateRequest(storage: Storage.LocalStorage, configured: Option<string>, postId: string, data: PostData)
    returns (req: Request)
    ensures req.verb == "PUT" && req.url == ApiBase(configured) + "/api/posts/" + postId
    ensures req.body == BodyFor(data)
    ensures "Content-Type" in req.headers <==> data.Plain?
    ensures "Content-Type" in req.headers <==> req.body.JsonText?
    ensures "Authorization" in req.headers <==> Truthy(storage.GetItem("authToken"))
    ensures "Authorization" in req.headers ==> req.headers["Authorization"] == "Bearer " + storage.items["authToken"]
  {
    var isFormData := data.FormData?;
    var headers := CreateHeaders(storage, true, isFormData);
    var base := ApiBase(configured);
    req := Request("PUT", base + "/api/posts/" + postId, headers, BodyFor(data));
  }
}
