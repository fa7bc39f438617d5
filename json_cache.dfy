/**
 * The read-through JSON cache of `get` and `post`: a response is stored as
 * `app/json/<normalizeUrl(url)>.json`; a stored response is returned without any request, checked
 * against the schema module `app/types/<normalizeUrl(url)>.type.ts` when one exists; otherwise the
 * request is made and a truthy response is stored.
 */
module JsonCache {
  import opened Common
  import opened Json
  import opened UrlKey
  import opened FileStore

  const JsonFolder := "app/json"
  const TypesFolder := "app/types"
  const ValidationError := "Cached response failed validation"

  /** `result.error`: absent, a string, or another value with its `toString()`. */
  datatype ErrorValue = ErrText(text: string) | ErrOther(shown: string)

  /** What `fetchWithCache` resolves to. */
  datatype FetchResult = FetchResult(data: Option<Json>, error: Option<ErrorValue>)

  /** The call `fetchWithCache(url, options)`: `options` without `schema`, and `schema`. */
  datatype Request<S> = Request(url: string, init: map<string, Json>, schema: Option<S>)

  /** What `import()` of the type file gives: a rejection, or a module with or without a default schema. */
  datatype TypeModule = ImportThrew(message: string) | Module(default: Option<Json -> bool>)

  /** `{ data?, error? }`. */
  datatype CacheReply = CacheReply(data: Option<Json>, error: Option<string>)

  /**
   * The outside world: `JSON.parse` of a stored file, `import()` of a type file by path, the
   * request, `JSON.stringify` (with two-space indentation for stored files), and the rejection
   * of `writeFile` for a file, if it rejects (no `mkdir` precedes it, so a missing folder
   * rejects too).
   */
  datatype CacheEnv<!S> = CacheEnv(
    parse: string -> Option<Json>,
    importType: string -> TypeModule,
    fetch: Request<S> -> FetchResult,
    pretty: Json -> string,
    stringify: Json -> string,
    writeFault: Key -> Option<string>)

  /** Where the response for `url` is stored. */
  function JsonKey(url: string): Key {
    (JsonFolder, NormalizeUrl(url) + ".json")
  }

  /** Where the schema module for `url` lives. */
  function TypeKey(url: string): Key {
    (TypesFolder, NormalizeUrl(url) + ".type.ts")
  }

  /** Both names lie directly in their folder, and the two differ for every URL. */
  lemma CacheNames(url: string)
    ensures '/' !in JsonKey(url).1 && '/' !in TypeKey(url).1
    ensures JsonKey(url) != TypeKey(url)
  {
    NormalizeUrlNoSlash(url);
    var n := NormalizeUrl(url);
    assert (n + ".json")[|n| + 4] == 'n';
    assert (n + ".json")[|n|..] == ".json" && (n + ".type.ts")[|n|..] == ".type.ts";
    forall i | 0 <= i < |n| + 5 ensures (n + ".json")[i] != '/' {
      if i < |n| {
        assert (n + ".json")[i] == n[i];
      }
    }
    forall i | 0 <= i < |n| + 8 ensures (n + ".type.ts")[i] != '/' {
      if i < |n| {
        assert (n + ".type.ts")[i] == n[i];
      }
    }
  }

  /** `readJson`: the parsed file, or `null` when it does not parse. */
  function ReadJson(content: string, parse: string -> Option<Json>): Json {
    parse(content).GetOr(JNull)
  }

  /** The path `dynamicImportType` is given. */
  function ImportPath(url: string): string {
    "../../" + TypesFolder + "/" + TypeKey(url).1
  }

  /**
   * The cache-hit branch: None on a miss; on a hit, the reply, or Err when the import of the type
   * module rejects.
   */
  function Lookup<S>(files: map<Key, string>, url: string, env: CacheEnv<S>): Option<Result<CacheReply, string>> {
    if JsonKey(url) !in files then None
    else
      var cached := ReadJson(files[JsonKey(url)], env.parse);
      if TypeKey(url) !in files then Some(Ok(CacheReply(Some(cached), None)))
      else
        match env.importType(ImportPath(url))
        case ImportThrew(m) => Some(Err(m))
        case Module(None) => Some(Ok(CacheReply(Some(cached), None)))
        case Module(Some(valid)) =>
          if valid(cached) then Some(Ok(CacheReply(Some(cached), None)))
          else Some(Ok(CacheReply(None, Some(ValidationError))))
  }

  /** `typeof e === "string" ? e : e?.toString()`. */
  function ErrorText(e: Option<ErrorValue>): Option<string> {
    match e
    case None => None
    case Some(ErrText(s)) => Some(s)
    case Some(ErrOther(s)) => Some(s)
  }

  /** The reply on a miss. */
  function MissReply(result: FetchResult): CacheReply {
    CacheReply(result.data, ErrorText(result.error))
  }

  /** The result of a miss: the reply, or the rejection of `saveFile` when a truthy response is written. */
  function MissOutcome(url: string, result: FetchResult, writeFault: Key -> Option<string>): Result<CacheReply, string> {
    if Truthy(result.data) && writeFault(JsonKey(url)).Some? then Err(writeFault(JsonKey(url)).value)
    else Ok(MissReply(result))
  }

  /** The files after a miss: the response is stored when its data is truthy and the write succeeds. */
  function AfterMiss(files: map<Key, string>, url: string, result: FetchResult, pretty: Json -> string,
                     writeFault: Key -> Option<string>): map<Key, string>
  {
    if Truthy(result.data) && writeFault(JsonKey(url)).None? then files[JsonKey(url) := pretty(result.data.value)]
    else files
  }

  /** The spread `...fetchOptions`. */
  function Spread(fetchOptions: Option<map<string, Json>>): map<string, Json> {
    if fetchOptions.Some? then fetchOptions.value else map[]
  }

  /** `fetchOptions?.headers || {}`, spread: only an object has properties to spread here. */
  function CallerHeaders(fetchOptions: Option<map<string, Json>>): map<string, Json> {
    var o := Spread(fetchOptions);
    if "headers" in o && TruthyJson(o["headers"]) && o["headers"].JObj? then o["headers"].fields else map[]
  }

  /** The options `get` passes: `{ ...fetchOptions, method: "GET", schema }`. */
  function GetRequest<S>(url: string, schema: Option<S>, fetchOptions: Option<map<string, Json>>): Request<S> {
    Request(url, (Spread(fetchOptions) - {"schema"})["method" := JStr("GET")], schema)
  }

  /**
   * The options `post` passes: the caller's options, overridden by the method, the headers
   * (`Content-Type: application/json` unless the caller sets it), the serialised body and `no-store`.
   */
  function PostRequest<S>(url: string, body: Json, schema: Option<S>, fetchOptions: Option<map<string, Json>>,
                          stringify: Json -> string): Request<S>
  {
    var headers := map["Content-Type" := JStr("application/json")] + CallerHeaders(fetchOptions);
    Request(url, (Spread(fetchOptions) - {"schema"})["method" := JStr("POST")]["headers" := JObj(headers)]
                   ["body" := JStr(stringify(body))]["cache" := JStr("no-store")], schema)
  }

  /** The result of the read-through for a given request. */
  function Outcome<S>(files: map<Key, string>, url: string, req: Request<S>, env: CacheEnv<S>): Result<CacheReply, string> {
    match Lookup(files, url, env)
    case Some(hit) => hit
    case None => MissOutcome(url, env.fetch(req), env.writeFault)
  }

  /** The files after the read-through for a given request. */
  function FilesAfter<S>(files: map<Key, string>, url: string, req: Request<S>, env: CacheEnv<S>): map<Key, string> {
    if Lookup(files, url, env).Some? then files else AfterMiss(files, url, env.fetch(req), env.pretty, env.writeFault)
  }

  /** The hit branch, reading the store. */
  method ReadCached<S>(store: Store, url: string, env: CacheEnv<S>) returns (hit: Option<Result<CacheReply, string>>)
    ensures hit == Lookup(store.files, url, env)
  {
    var jsonFile := JsonKey(url).1;
    var typeFile := TypeKey(url).1;
    if !store.Exists(JsonFolder, jsonFile) {
      return None;
    }
    var content := store.Read(JsonFolder, jsonFile);
    var cached := ReadJson(content.value, env.parse);
    if store.Exists(TypesFolder, typeFile) {
      var typeModule := env.importType(ImportPath(url));
      if typeModule.ImportThrew? {
        return Some(Err(typeModule.message));
      }
      if typeModule.default.Some? {
        if !typeModule.default.value(cached) {
          return Some(Ok(CacheReply(None, Some(ValidationError))));
        }
        return Some(Ok(CacheReply(Some(cached), None)));
      }
    }
    return Some(Ok(CacheReply(Some(cached), None)));
  }

  /** The read-through for a request. */
  method ReadThrough<S>(store: Store, url: string, req: Request<S>, env: CacheEnv<S>) returns (r: Result<CacheReply, string>)
    modifies store
    ensures r == Outcome(old(store.files), url, req, env)
    ensures store.files == FilesAfter(old(store.files), url, req, env)
  {
    var hit := ReadCached(store, url, env);
    if hit.Some? {
      return hit.value;
    }
    var result := env.fetch(req);
    if Truthy(result.data) {
      var fault := env.writeFault(JsonKey(url));
      if fault.Some? {
        return Err(fault.value);
      }
      store.WriteFile(JsonFolder, JsonKey(url).1, env.pretty(result.data.value));
    }
    return Ok(CacheReply(result.data, ErrorText(result.error)));
  }

  /** `get({ url, schema, fetchOptions })`. */
  method Get<S>(store: Store, url: string, schema: Option<S>, fetchOptions: Option<map<string, Json>>, env: CacheEnv<S>)
    returns (r: Result<CacheReply, string>)
    modifies store
    ensures r == Outcome(old(store.files), url, GetRequest(url, schema, fetchOptions), env)
    ensures store.files == FilesAfter(old(store.files), url, GetRequest(url, schema, fetchOptions), env)
  {
    r := ReadThrough(store, url, GetRequest(url, schema, fetchOptions), env);
  }

  /** `post({ url, body, schema, fetchOptions })`. */
  method Post<S>(store: Store, url: string, body: Json, schema: Option<S>, fetchOptions: Option<map<string, Json>>,
                 env: CacheEnv<S>) returns (r: Result<CacheReply, string>)
    modifies store
    ensures r == Outcome(old(store.files), url, PostRequest(url, body, schema, fetchOptions, env.stringify), env)
    ensures store.files == FilesAfter(old(store.files), url, PostRequest(url, body, schema, fetchOptions, env.stringify), env)
  {
    r := ReadThrough(store, url, PostRequest(url, body, schema, fetchOptions, env.stringify), env);
  }

  // Properties

  /**
   * A hit happens exactly when the response file exists. It then fails only when the type module's
   * import rejects; reports the validation error exactly when a default schema rejects the stored
   * value; and otherwise returns the stored value.
   */
  lemma HitFacts<S>(files: map<Key, string>, url: string, env: CacheEnv<S>)
    ensures Lookup(files, url, env).Some? <==> JsonKey(url) in files
    ensures JsonKey(url) in files ==>
      var cached := ReadJson(files[JsonKey(url)], env.parse);
      var m := env.importType(ImportPath(url));
      var hit := Lookup(files, url, env).value;
      && (hit.Err? <==> TypeKey(url) in files && m.ImportThrew?)
      && (hit == Ok(CacheReply(None, Some(ValidationError))) <==>
            TypeKey(url) in files && m.Module? && m.default.Some? && !m.default.value(cached))
      && (hit.Ok? && hit != Ok(CacheReply(None, Some(ValidationError))) ==> hit == Ok(CacheReply(Some(cached), None)))
  {
  }

  /**
   * On a hit neither the request nor the request function matters and the store is unchanged:
   * nothing is fetched.
   */
  lemma HitIgnoresRequest<S>(files: map<Key, string>, url: string, req1: Request<S>, req2: Request<S>,
                             env1: CacheEnv<S>, env2: CacheEnv<S>)
    requires JsonKey(url) in files
    requires env1.parse == env2.parse && env1.importType == env2.importType
    ensures Outcome(files, url, req1, env1) == Outcome(files, url, req2, env2)
    ensures FilesAfter(files, url, req1, env1) == files
  {
  }

  /**
   * `post` keys the cache by URL only: once a response for `url` is stored, a post with any other
   * body, schema or options gets the same reply as the first, without a request.
   */
  lemma PostIgnoresBody<S>(files: map<Key, string>, url: string, body1: Json, body2: Json,
                           schema1: Option<S>, schema2: Option<S>,
                           opts1: Option<map<string, Json>>, opts2: Option<map<string, Json>>, env: CacheEnv<S>)
    requires JsonKey(url) in files
    ensures Outcome(files, url, PostRequest(url, body1, schema1, opts1, env.stringify), env)
         == Outcome(files, url, PostRequest(url, body2, schema2, opts2, env.stringify), env)
  {
    HitIgnoresRequest(files, url, PostRequest(url, body1, schema1, opts1, env.stringify),
                      PostRequest(url, body2, schema2, opts2, env.stringify), env, env);
  }

  /**
   * On a miss a truthy response is written; when that write rejects, the call rejects with it and
   * the store is unchanged. Otherwise the reply carries the fetched data and the error as a string,
   * and the store gains the response file exactly when the data is truthy; no other file changes.
   */
  lemma MissFacts<S>(files: map<Key, string>, url: string, req: Request<S>, env: CacheEnv<S>)
    requires JsonKey(url) !in files
    ensures var res := env.fetch(req);
      var fault := env.writeFault(JsonKey(url));
      var after := FilesAfter(files, url, req, env);
      && (Outcome(files, url, req, env).Err? <==> Truthy(res.data) && fault.Some?)
      && (Outcome(files, url, req, env).Err? ==> Outcome(files, url, req, env).error == fault.value && after == files)
      && (Outcome(files, url, req, env).Ok? ==> Outcome(files, url, req, env).value == CacheReply(res.data, ErrorText(res.error)))
      && (JsonKey(url) in after <==> Truthy(res.data) && fault.None?)
      && (Truthy(res.data) && fault.None? ==> after[JsonKey(url)] == env.pretty(res.data.value))
      && (forall k :: k != JsonKey(url) ==> (k in after <==> k in files))
      && (forall k :: k in files ==> after[k] == files[k])
  {
  }

  /** The error is undefined exactly when there was none, and a string is passed on as it is. */
  lemma ErrorTextFacts(e: Option<ErrorValue>)
    ensures ErrorText(e).None? <==> e.None?
    ensures e.Some? && e.value.ErrText? ==> ErrorText(e) == Some(e.value.text)
  {
  }

  /** `get` sends the caller's options with the method set to GET. */
  lemma GetRequestShape<S>(url: string, schema: Option<S>, opts: Option<map<string, Json>>)
    ensures var req := GetRequest(url, schema, opts);
      && req.url == url && req.schema == schema
      && req.init["method"] == JStr("GET")
      && (forall k :: k in req.init <==> k == "method" || (k in Spread(opts) && k != "schema"))
      && (forall k :: k in Spread(opts) && k != "method" && k != "schema" ==> req.init[k] == Spread(opts)[k])
  {
  }

  /**
   * `post` sends POST, the serialised body and `no-store` whatever the caller's options say; the
   * caller's headers win over the default `Content-Type`; every other option is passed on.
   */
  lemma PostRequestShape<S>(url: string, body: Json, schema: Option<S>, opts: Option<map<string, Json>>,
                            stringify: Json -> string)
    ensures var req := PostRequest(url, body, schema, opts, stringify);
      var caller := CallerHeaders(opts);
      && req.url == url && req.schema == schema
      && req.init["method"] == JStr("POST")
      && req.init["body"] == JStr(stringify(body))
      && req.init["cache"] == JStr("no-store")
      && req.init["headers"].JObj?
      && "Content-Type" in req.init["headers"].fields
      && (forall h :: h in caller ==> req.init["headers"].fields[h] == caller[h])
      && ("Content-Type" !in caller ==> req.init["headers"].fields["Content-Type"] == JStr("application/json"))
      && (forall k :: k in Spread(opts) && k !in {"method", "headers", "body", "cache", "schema"} ==>
            k in req.init && req.init[k] == Spread(opts)[k])
  {
  }

  /**
   * A response stored by a miss is what the next call returns, without a request, when there is no
   * type file and the stored text parses back to the data.
   */
  lemma StoreThenHit<S>(files: map<Key, string>, url: string, req: Request<S>, next: Request<S>, env: CacheEnv<S>)
    requires JsonKey(url) !in files && TypeKey(url) !in files
    requires Truthy(env.fetch(req).data) && env.writeFault(JsonKey(url)).None?
    requires env.parse(env.pretty(env.fetch(req).data.value)) == Some(env.fetch(req).data.value)
    ensures Outcome(FilesAfter(files, url, req, env), url, next, env) == Ok(CacheReply(env.fetch(req).data, None))
  {
    CacheNames(url);
  }
}
