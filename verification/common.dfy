/** Shared value types of the dashboard: optional values, JSON values as the
    route handlers see them, and HTTP-like replies. */
module Common {

  datatype Option<+T> = None | Some(value: T)

  /** `opt || fallback` for an optional string: JavaScript treats both an
      absent value and the empty string as false. */
  function OrElse(opt: Option<string>, fallback: string): (r: string)
    ensures r == fallback <==> (opt.None? || opt.value == "" || opt.value == fallback)
    ensures r != fallback ==> opt == Some(r)
  {
    if opt.Some? && opt.value != "" then opt.value else fallback
  }

  /** JavaScript truthiness of an optional string: an unset environment
      variable and the empty string are both false. */
  predicate Present(opt: Option<string>)
    ensures Present(opt) <==> OrElse(opt, "") != ""
  {
    opt.Some? && opt.value != ""
  }

  /** The deployment's environment variables, read once at start-up. */
  datatype Env = Env(
    youtubeApiKey: Option<string>,   // YOUTUBE_API_KEY
    youtubeVideoId: Option<string>,  // YOUTUBE_VIDEO_ID
    openAiApiKey: Option<string>)    // OPENAI_API_KEY

  /** A JSON value as carried in a request or response body. Numbers are
      modelled as integers (the dashboard only sends counts). */
  datatype Json =
    | Null
    | Bool(b: bool)
    | Num(n: int)
    | Str(s: string)
    | Arr(items: seq<Json>)
    | Obj(fields: map<string, Json>)

  /** JavaScript truthiness of a JSON value. */
  predicate Truthy(j: Json)
    ensures j.Null? ==> !Truthy(j)
    ensures j.Arr? || j.Obj? ==> Truthy(j)
    ensures j.Str? ==> (Truthy(j) <==> Present(Some(j.s)))
  {
    match j
    case Null => false
    case Bool(b) => b
    case Num(n) => n != 0
    case Str(s) => s != ""
    case Arr(_) => true
    case Obj(_) => true
  }

  /** The empty object `{}`. */
  const EmptyObject: Json := Obj(map[])

  /** What a route handler answers: a status code and either a payload or
      an error message (`{ error: ... }`). */
  datatype Reply<+T> =
    | Ok(status: nat, value: T)
    | Err(status: nat, message: string)

  /** One call of a provider-backed route: the outbound request it issued,
      if any, and the reply it gave its caller. */
  datatype Exchange<+Req, +T> = Exchange(sent: Option<Req>, reply: Reply<T>)

  /** The outcome of an outbound provider call, as the route's `try` sees it. */
  datatype Outcome<+T> =
    | Delivered(data: T)
    | Failed(message: Option<string>)

  function Min(a: int, b: int): int
  {
    if a <= b then a else b
  }
}
