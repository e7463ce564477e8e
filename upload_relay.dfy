/** The upload relay (CLOUDFLARE_WORKER_EXAMPLE.js): one `fetch` handler in front of an
    object-storage bucket. It answers CORS pre-flight, validates and stores uploads under
    `uploads/`, deletes, serves stored objects, reports health, and answers 404 otherwise.

    `Handle` is the handler as a decision table over the bucket; `Relay.Fetch` is the
    handler as the worker runs it, updating the bucket held in a field, and is proved to
    agree with `Handle`. */
module UploadRelay {
  import opened Common

  datatype HttpMethod = GET | HEAD | POST | PUT | PATCH | DELETE | OPTIONS

  /** A request as the handler reads it: the method (`verb`), the URL path, the decoded `key` query
      parameter (`None` when absent), the `Content-Type` header, the `Content-Length` header
      as `parseInt` reads it (`None` when the header is absent or empty, or does not parse as
      a number), and the body bytes. */
  datatype Request = Request(verb: HttpMethod, path: string, key: Option<string>,
                             contentType: Option<string>, contentLength: Option<int>, body: seq<bv8>)

  /** The worker's configuration: `ALLOWED_ORIGINS` and `MAX_FILE_SIZE`, each possibly unset. */
  datatype Env = Env(allowedOrigins: Option<string>, maxFileSize: Option<nat>)

  /** What the outside world contributes to one request: the clock's ISO timestamp (opaque),
      the etag the bucket assigns to a stored object, and, when the bucket call throws, the
      exception's message. */
  datatype StorageIo = StorageIo(now: string, etag: string, fault: Option<string>)

  /** An object in the bucket: its bytes, the `httpMetadata.contentType`, the
      `customMetadata.uploadedAt` timestamp and its etag. */
  datatype StoredObject = StoredObject(body: seq<bv8>, contentType: string, uploadedAt: string, etag: string)

  type Bucket = map<string, StoredObject>

  datatype RelayError =
    | MissingKey
    | InvalidKeyFormat
    | InvalidFileType
    | FileTooLarge(maxSize: nat)
    | UploadFailed(message: string)
    | DeleteFailed(message: string)

  /** The JSON bodies the relay sends. */
  datatype Reply =
    | Failure(error: RelayError)
    | Uploaded(key: string)
    | Deleted(key: string)
    | Healthy(timestamp: string)
    | NoRoute

  datatype Body = NoBody | Json(reply: Reply) | Text(text: string) | Bytes(bytes: seq<bv8>)

  type Headers = map<string, string>

  datatype Response = Response(status: nat, headers: Headers, body: Body)

  /** A response and the bucket after the request. */
  datatype Outcome = Outcome(response: Response, bucket: Bucket)

  /** The JSON body's `success` field. */
  function Success(reply: Reply): bool {
    !reply.Failure? && !reply.NoRoute?
  }

  /** The JSON body's `error` field; the size limit's message, which divides by 1024 * 1024 in
      floating point, is left abstract. */
  function ErrorText(e: RelayError): string {
    match e
    case MissingKey => "Missing key parameter"
    case InvalidKeyFormat => "Invalid key format"
    case InvalidFileType => "Invalid file type. Only images and videos are allowed."
    case FileTooLarge(_) => "File too large."
    case UploadFailed(m) => "Upload failed: " + m
    case DeleteFailed(m) => "Delete failed: " + m
  }

  /** The endpoints the 404 body lists. */
  const Endpoints: seq<string> := [
    "POST /upload?key=uploads/filename.jpg",
    "DELETE /delete?key=uploads/filename.jpg",
    "GET /file?key=uploads/filename.jpg (optional)",
    "GET /health"
  ]

  const DefaultMaxFileSize: nat := 10 * 1024 * 1024

  const Namespace: string := "uploads/"

  const AllowedTypes: seq<string> := [
    "image/jpeg", "image/jpg", "image/png", "image/gif", "image/webp",
    "video/mp4", "video/quicktime", "video/x-msvideo", "video/webm"
  ]

  const FileCacheControl: string := "public, max-age=31536000"

  // ---------------------------------------------------------------------------
  // Headers
  // ---------------------------------------------------------------------------

  /** The allowed origin: `ALLOWED_ORIGINS`, or `*` when it is unset. */
  function AllowOrigin(env: Env): string {
    OrElse(env.allowedOrigins, "*")
  }

  /** The `corsHeaders` object, as its entries in order. */
  function CorsEntries(env: Env): seq<(string, string)> {
    [("Access-Control-Allow-Origin", AllowOrigin(env)),
     ("Access-Control-Allow-Methods", "GET, HEAD, POST, DELETE, OPTIONS"),
     ("Access-Control-Allow-Headers", "Content-Type, Authorization"),
     ("Access-Control-Max-Age", "86400")]
  }

  function CorsHeaders(env: Env): Headers {
    Assign(map[], CorsEntries(env))
  }

  /** `{ 'Content-Type': 'application/json', ...corsHeaders }` */
  function JsonHeaders(env: Env): Headers {
    Assign(map["Content-Type" := "application/json"], CorsEntries(env))
  }

  /** The headers the object's metadata, etag and cache policy put in place before the CORS
      headers are copied in. */
  function FileBaseHeaders(obj: StoredObject): Headers {
    map["Content-Type" := obj.contentType, "etag" := obj.etag, "Cache-Control" := FileCacheControl]
  }

  function FileHeaders(env: Env, obj: StoredObject): Headers {
    Assign(FileBaseHeaders(obj), CorsEntries(env))
  }

  /** Every header set the relay sends carries the four CORS headers, whatever it started from. */
  lemma CorsCarried(h: Headers, env: Env)
    ensures var r := Assign(h, CorsEntries(env));
      && "Access-Control-Allow-Origin" in r && r["Access-Control-Allow-Origin"] == AllowOrigin(env)
      && "Access-Control-Allow-Methods" in r && r["Access-Control-Allow-Methods"] == "GET, HEAD, POST, DELETE, OPTIONS"
      && "Access-Control-Allow-Headers" in r && r["Access-Control-Allow-Headers"] == "Content-Type, Authorization"
      && "Access-Control-Max-Age" in r && r["Access-Control-Max-Age"] == "86400"
  {
    var e := CorsEntries(env);
    AssignLastWins(h, e, 0);
    AssignLastWins(h, e, 1);
    AssignLastWins(h, e, 2);
    AssignLastWins(h, e, 3);
  }

  /** The `forEach` over `Object.entries(corsHeaders)` that copies each entry into a headers
      object. */
  method CopyHeaders(h: Headers, entries: seq<(string, string)>) returns (r: Headers)
    ensures r == Assign(h, entries)
  {
    r := h;
    var i := 0;
    while i < |entries|
      invariant 0 <= i <= |entries|
      invariant Assign(r, entries[i..]) == Assign(h, entries)
    {
      assert entries[i..][1..] == entries[i + 1..];
      r := r[entries[i].0 := entries[i].1];
      i := i + 1;
    }
  }

  // ---------------------------------------------------------------------------
  // Validation
  // ---------------------------------------------------------------------------

  /** `key.includes('..') || !key.startsWith('uploads/')` rejects the key. */
  predicate KeyShapeOk(key: string) {
    !Contains(key, "..") && StartsWith(key, Namespace)
  }

  /** The `Content-Type` header, or `application/octet-stream` when it is absent or empty. */
  function ContentTypeOf(req: Request): string {
    OrElse(req.contentType, "application/octet-stream")
  }

  predicate TypeAllowed(req: Request) {
    Lower(ContentTypeOf(req)) in AllowedTypes
  }

  /** `env.MAX_FILE_SIZE || 10 * 1024 * 1024`: an unset or zero setting falls back to 10 MiB. */
  function MaxSize(env: Env): nat {
    if env.maxFileSize.Some? && env.maxFileSize.value != 0 then env.maxFileSize.value else DefaultMaxFileSize
  }

  /** `contentLength && parseInt(contentLength) > maxSize` */
  predicate TooLarge(env: Env, req: Request) {
    req.contentLength.Some? && req.contentLength.value > MaxSize(env)
  }

  function JsonResponse(env: Env, status: nat, reply: Reply): Response {
    Response(status, JsonHeaders(env), Json(reply))
  }

  function TextResponse(env: Env, status: nat, text: string): Response {
    Response(status, CorsHeaders(env), Text(text))
  }

  /** The key checks `/upload` and `/delete` share: a missing key, then its shape. */
  function KeyRejection(env: Env, key: Option<string>): Option<Response> {
    if !Truthy(key) then Some(JsonResponse(env, 400, Failure(MissingKey)))
    else if !KeyShapeOk(key.value) then Some(JsonResponse(env, 400, Failure(InvalidKeyFormat)))
    else None
  }

  /** The first `/upload` check that fails, in the handler's order: missing key, key shape,
      content type, size. */
  function UploadRejection(env: Env, req: Request): Option<Response> {
    var keyCheck := KeyRejection(env, req.key);
    if keyCheck.Some? then keyCheck
    else if !TypeAllowed(req) then Some(JsonResponse(env, 400, Failure(InvalidFileType)))
    else if TooLarge(env, req) then Some(JsonResponse(env, 413, Failure(FileTooLarge(MaxSize(env)))))
    else None
  }

  // ---------------------------------------------------------------------------
  // The handler
  // ---------------------------------------------------------------------------

  /** The object an accepted upload stores. */
  function NewObject(req: Request, io: StorageIo): StoredObject {
    StoredObject(req.body, ContentTypeOf(req), io.now, io.etag)
  }

  /** `fetch(request, env)` as a decision table over the bucket. */
  function Handle(env: Env, bucket: Bucket, req: Request, io: StorageIo): Outcome {
    if req.verb == OPTIONS then
      Outcome(Response(200, CorsHeaders(env), NoBody), bucket)
    else if req.path == "/upload" && req.verb == POST then
      var rejection := UploadRejection(env, req);
      if rejection.Some? then Outcome(rejection.value, bucket)
      else if io.fault.Some? then Outcome(JsonResponse(env, 500, Failure(UploadFailed(io.fault.value))), bucket)
      else Outcome(JsonResponse(env, 200, Uploaded(req.key.value)), bucket[req.key.value := NewObject(req, io)])
    else if req.path == "/delete" && req.verb == DELETE then
      var rejection := KeyRejection(env, req.key);
      if rejection.Some? then Outcome(rejection.value, bucket)
      else if io.fault.Some? then Outcome(JsonResponse(env, 500, Failure(DeleteFailed(io.fault.value))), bucket)
      else Outcome(JsonResponse(env, 200, Deleted(req.key.value)), bucket - {req.key.value})
    else if req.path == "/file" && req.verb == GET then
      if !Truthy(req.key) then Outcome(TextResponse(env, 400, "Missing key parameter"), bucket)
      else if io.fault.Some? then Outcome(TextResponse(env, 500, "Error retrieving file"), bucket)
      else if req.key.value !in bucket then Outcome(TextResponse(env, 404, "File not found"), bucket)
      else
        var obj := bucket[req.key.value];
        Outcome(Response(200, FileHeaders(env, obj), Bytes(obj.body)), bucket)
    else if req.path == "/health" && req.verb == GET then
      Outcome(JsonResponse(env, 200, Healthy(io.now)), bucket)
    else
      Outcome(JsonResponse(env, 404, NoRoute), bucket)
  }

  /** The relay: the bucket it fronts and its configuration. */
  class Relay {
    var bucket: Bucket
    const env: Env

    constructor (env: Env, contents: Bucket)
      ensures this.env == env && bucket == contents
    {
      this.env := env;
      bucket := contents;
    }

    /** The worker's `fetch` handler. */
    method Fetch(req: Request, io: StorageIo) returns (resp: Response)
      modifies this
      ensures resp == Handle(env, old(bucket), req, io).response
      ensures bucket == Handle(env, old(bucket), req, io).bucket
    {
      if req.verb == OPTIONS {
        return Response(200, CorsHeaders(env), NoBody);
      }

      if req.path == "/upload" && req.verb == POST {
        if !Truthy(req.key) {
          return JsonResponse(env, 400, Failure(MissingKey));
        }
        var key := req.key.value;
        if Contains(key, "..") || !StartsWith(key, Namespace) {
          return JsonResponse(env, 400, Failure(InvalidKeyFormat));
        }
        var contentType := ContentTypeOf(req);
        if Lower(contentType) !in AllowedTypes {
          return JsonResponse(env, 400, Failure(InvalidFileType));
        }
        var maxSize := MaxSize(env);
        if req.contentLength.Some? && req.contentLength.value > maxSize {
          return JsonResponse(env, 413, Failure(FileTooLarge(maxSize)));
        }
        if io.fault.Some? {
          return JsonResponse(env, 500, Failure(UploadFailed(io.fault.value)));
        }
        bucket := bucket[key := StoredObject(req.body, contentType, io.now, io.etag)];
        return JsonResponse(env, 200, Uploaded(key));
      }

      if req.path == "/delete" && req.verb == DELETE {
        if !Truthy(req.key) {
          return JsonResponse(env, 400, Failure(MissingKey));
        }
        var key := req.key.value;
        if Contains(key, "..") || !StartsWith(key, Namespace) {
          return JsonResponse(env, 400, Failure(InvalidKeyFormat));
        }
        if io.fault.Some? {
          return JsonResponse(env, 500, Failure(DeleteFailed(io.fault.value)));
        }
        bucket := bucket - {key};
        return JsonResponse(env, 200, Deleted(key));
      }

      if req.path == "/file" && req.verb == GET {
        if !Truthy(req.key) {
          return TextResponse(env, 400, "Missing key parameter");
        }
        if io.fault.Some? {
          return TextResponse(env, 500, "Error retrieving file");
        }
        var key := req.key.value;
        if key !in bucket {
          return TextResponse(env, 404, "File not found");
        }
        var obj := bucket[key];
        var headers := CopyHeaders(FileBaseHeaders(obj), CorsEntries(env));
        return Response(200, headers, Bytes(obj.body));
      }

      if req.path == "/health" && req.verb == GET {
        return JsonResponse(env, 200, Healthy(io.now));
      }

      return JsonResponse(env, 404, NoRoute);
    }
  }

  // ---------------------------------------------------------------------------
  // Properties
  // ---------------------------------------------------------------------------

  /** Pre-flight: OPTIONS on any path answers 200 with an empty body and the CORS headers,
      and leaves the bucket alone. */
  lemma OptionsPreflight(env: Env, bucket: Bucket, req: Request, io: StorageIo)
    requires req.verb == OPTIONS
    ensures Handle(env, bucket, req, io) == Outcome(Response(200, CorsHeaders(env), NoBody), bucket)
  {
  }

  /** The `/upload` checks in order, first failure wins, each leaving the bucket unchanged:
      a missing key; a key that contains `..` or lies outside `uploads/`; a lower-cased content
      type outside the nine allowed; a declared length over the limit. Only when all pass and
      the bucket call succeeds is the body stored, under exactly `key`, with 200. */
  lemma UploadCheckOrder(env: Env, bucket: Bucket, req: Request, io: StorageIo)
    requires req.verb == POST && req.path == "/upload"
    ensures var out := Handle(env, bucket, req, io);
      && (!Truthy(req.key) ==>
            out == Outcome(JsonResponse(env, 400, Failure(MissingKey)), bucket))
      && (Truthy(req.key) && (Contains(req.key.value, "..") || !StartsWith(req.key.value, Namespace)) ==>
            out == Outcome(JsonResponse(env, 400, Failure(InvalidKeyFormat)), bucket))
      && (Truthy(req.key) && KeyShapeOk(req.key.value) && !TypeAllowed(req) ==>
            out == Outcome(JsonResponse(env, 400, Failure(InvalidFileType)), bucket))
      && (Truthy(req.key) && KeyShapeOk(req.key.value) && TypeAllowed(req) && TooLarge(env, req) ==>
            out == Outcome(JsonResponse(env, 413, Failure(FileTooLarge(MaxSize(env)))), bucket))
      && (Truthy(req.key) && KeyShapeOk(req.key.value) && TypeAllowed(req) && !TooLarge(env, req) ==>
            if io.fault.Some? then out == Outcome(JsonResponse(env, 500, Failure(UploadFailed(io.fault.value))), bucket)
            else out == Outcome(JsonResponse(env, 200, Uploaded(req.key.value)),
                                bucket[req.key.value := StoredObject(req.body, ContentTypeOf(req), io.now, io.etag)]))
  {
  }

  /** A request without a numeric `Content-Length` is never refused as too large. */
  lemma NoLengthNever413(env: Env, bucket: Bucket, req: Request, io: StorageIo)
    requires req.contentLength.None?
    ensures Handle(env, bucket, req, io).response.status != 413
  {
  }

  /** The limit is `MAX_FILE_SIZE` when set (and non-zero), else 10 MiB; a declared length
      equal to the limit passes. */
  lemma SizeLimit(env: Env, req: Request)
    ensures env.maxFileSize.None? ==> MaxSize(env) == 10 * 1024 * 1024
    ensures req.contentLength == Some(MaxSize(env) as int) ==> !TooLarge(env, req)
  {
  }

  /** `/delete` applies the same key checks; on success it removes only `key`, without first
      asking whether the object exists, and echoes the key with 200. */
  lemma DeleteSemantics(env: Env, bucket: Bucket, req: Request, io: StorageIo)
    requires req.verb == DELETE && req.path == "/delete"
    ensures var out := Handle(env, bucket, req, io);
      && (!Truthy(req.key) ==> out == Outcome(JsonResponse(env, 400, Failure(MissingKey)), bucket))
      && (Truthy(req.key) && !KeyShapeOk(req.key.value) ==>
            out == Outcome(JsonResponse(env, 400, Failure(InvalidKeyFormat)), bucket))
      && (Truthy(req.key) && KeyShapeOk(req.key.value) && io.fault.None? ==>
            && out.response == JsonResponse(env, 200, Deleted(req.key.value))
            && out.bucket.Keys == bucket.Keys - {req.key.value}
            && forall k :: k in out.bucket ==> out.bucket[k] == bucket[k])
      && (Truthy(req.key) && KeyShapeOk(req.key.value) && io.fault.Some? ==>
            out == Outcome(JsonResponse(env, 500, Failure(DeleteFailed(io.fault.value))), bucket))
  {
  }

  /** `GET /file` checks only that a key is present, not its shape: a stored object is served
      with its bytes, its stored content type, its etag and a one-year public cache policy;
      an absent one gives 404. The bucket never changes. */
  lemma FileServing(env: Env, bucket: Bucket, req: Request, io: StorageIo)
    requires req.verb == GET && req.path == "/file"
    ensures var out := Handle(env, bucket, req, io);
      && out.bucket == bucket
      && (!Truthy(req.key) ==> out.response.status == 400)
      && (Truthy(req.key) && io.fault.Some? ==> out.response.status == 500)
      && (Truthy(req.key) && io.fault.None? && req.key.value !in bucket ==>
            out.response == TextResponse(env, 404, "File not found"))
      && (Truthy(req.key) && io.fault.None? && req.key.value in bucket ==>
            var obj := bucket[req.key.value];
            && out.response.status == 200
            && out.response.body == Bytes(obj.body)
            && "Content-Type" in out.response.headers && out.response.headers["Content-Type"] == obj.contentType
            && "etag" in out.response.headers && out.response.headers["etag"] == obj.etag
            && "Cache-Control" in out.response.headers && out.response.headers["Cache-Control"] == FileCacheControl)
  {
    if Truthy(req.key) && io.fault.None? && req.key.value in bucket {
      var obj := bucket[req.key.value];
      var e := CorsEntries(env);
      AssignKeeps(FileBaseHeaders(obj), e, "Content-Type");
      AssignKeeps(FileBaseHeaders(obj), e, "etag");
      AssignKeeps(FileBaseHeaders(obj), e, "Cache-Control");
    }
  }

  /** A successful upload followed by `GET /file` for the same key returns the uploaded
      bytes with the uploaded content type. */
  lemma UploadThenFetch(env: Env, bucket: Bucket, up: Request, io: StorageIo, get: Request, io2: StorageIo)
    requires up.verb == POST && up.path == "/upload"
    requires Handle(env, bucket, up, io).response.status == 200
    requires get.verb == GET && get.path == "/file" && get.key == up.key && io2.fault.None?
    ensures var after := Handle(env, bucket, up, io).bucket;
      var out := Handle(env, after, get, io2);
      && out.response.status == 200
      && out.response.body == Bytes(up.body)
      && "Content-Type" in out.response.headers
      && out.response.headers["Content-Type"] == ContentTypeOf(up)
  {
    var after := Handle(env, bucket, up, io).bucket;
    assert up.key.value in after && after[up.key.value] == NewObject(up, io);
    FileServing(env, after, get, io2);
  }

  /** Health answers 200; every other path and method pair, such as GET `/upload` or HEAD
      `/file`, answers 404 with the list of endpoints. Neither touches the bucket. */
  lemma HealthAndFallback(env: Env, bucket: Bucket, req: Request, io: StorageIo)
    requires req.verb != OPTIONS
    ensures req.verb == GET && req.path == "/health" ==>
      Handle(env, bucket, req, io) == Outcome(JsonResponse(env, 200, Healthy(io.now)), bucket)
    ensures (&& !(req.path == "/upload" && req.verb == POST) && !(req.path == "/delete" && req.verb == DELETE)
             && !(req.path == "/file" && req.verb == GET) && !(req.path == "/health" && req.verb == GET)) ==>
      Handle(env, bucket, req, io) == Outcome(JsonResponse(env, 404, NoRoute), bucket)
  {
  }

  /** The bucket changes only on a successful upload or delete, and only at a key inside
      `uploads/` that contains no `..`; every other key keeps its object. */
  lemma WritesStayInNamespace(env: Env, bucket: Bucket, req: Request, io: StorageIo, k: string)
    ensures var out := Handle(env, bucket, req, io);
      (k in out.bucket) != (k in bucket) || (k in bucket && out.bucket[k] != bucket[k]) ==>
        && StartsWith(k, Namespace) && !Contains(k, "..")
        && out.response.status == 200 && req.key == Some(k)
  {
  }

  /** The keys of a bucket that only this relay writes. */
  ghost predicate SafeKeys(bucket: Bucket) {
    forall k :: k in bucket ==> StartsWith(k, Namespace) && !Contains(k, "..")
  }

  /** The relay keeps every key of the bucket inside `uploads/` and free of `..`. */
  lemma SafeKeysPreserved(env: Env, bucket: Bucket, req: Request, io: StorageIo)
    requires SafeKeys(bucket)
    ensures SafeKeys(Handle(env, bucket, req, io).bucket)
  {
    var out := Handle(env, bucket, req, io);
    forall k | k in out.bucket ensures StartsWith(k, Namespace) && !Contains(k, "..") {
      WritesStayInNamespace(env, bucket, req, io, k);
    }
  }

  /** Every response, errors included, carries `Access-Control-Allow-Origin` with the
      configured origin or `*`; every JSON body's `success` is true exactly for 200. */
  lemma CorsOnEveryResponse(env: Env, bucket: Bucket, req: Request, io: StorageIo)
    ensures var r := Handle(env, bucket, req, io).response;
      && "Access-Control-Allow-Origin" in r.headers
      && r.headers["Access-Control-Allow-Origin"] == AllowOrigin(env)
      && (r.body.Json? ==> (Success(r.body.reply) <==> r.status == 200))
  {
    CorsCarried(map[], env);
    CorsCarried(map["Content-Type" := "application/json"], env);
    var r := Handle(env, bucket, req, io).response;
    if req.verb != OPTIONS && req.path == "/file" && req.verb == GET && Truthy(req.key)
       && io.fault.None? && req.key.value in bucket {
      CorsCarried(FileBaseHeaders(bucket[req.key.value]), env);
    }
  }
}
