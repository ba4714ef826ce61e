/**
 * The request dispatcher of a Farm. One request, with its body already
 * collected and parsed, is routed, validated, handed to the backend, and the
 * backend's outcome is turned into exactly one response.
 */
module Dispatcher {
  import opened JsValues
  import opened Paths
  import opened ErrorCodes

  type Byte = b: int | 0 <= b < 256

  /** An incoming request once its body is read. `body` is Null for an absent or unparseable body. */
  datatype Request = Request(httpMethod: string, url: string, body: Value)

  /** The backend operations the dispatcher calls, with the arguments it passes. */
  datatype Call =
    | Info
    | Status
    | CallShepard(query: string, isChoice: bool)
    | GetShepardBehbbles(shepardId: string)
    | GetBehbble(shepardId: string, behbbleId: string)
    | InfoForPage

  /**
   * How a backend call ends: with a value, with a rejection whose reason
   * describes itself (`err.toString()`), or with a rejection by null or
   * undefined, whose `toString()` throws. The text page calls `info()` without
   * awaiting it: for InfoForPage, Resolved is the value `info()` returns (a
   * promise is an object without `name` or `description`), and a rejection is
   * a synchronous throw. RejectedNullish also stands for the other ways a
   * `.catch`-guarded call ends the request with nothing written: the method
   * throws synchronously, or returns a value that is not a promise.
   */
  datatype Outcome = Resolved(value: Value) | Rejected(description: string) | RejectedNullish

  /** A backend, as far as the dispatcher can tell: how each call ends. */
  type Backend = Call -> Outcome

  datatype Response =
    | Json(fields: map<string, Value>)  // the object given to JSON.stringify
    | PlainText(text: string)
    | NoResponse                         // the handler returns without writing anything
    | Crash                              // the handler throws, so nothing is written

  /** The result of handling one request: the response, the backend call made, and the object stored as the last status. */
  datatype Reply = Reply(response: Response, call: Option<Call>, stored: Option<map<string, Value>>)

  // ---------------------------------------------------------------- request body

  /** `Buffer.concat(chunks)`: the chunks' bytes in arrival order. */
  function Flatten(chunks: seq<seq<Byte>>): (bytes: seq<Byte>)
    ensures chunks == [] ==> bytes == []
    ensures |chunks| == 1 ==> bytes == chunks[0]
    ensures chunks != [] ==> |chunks[0]| <= |bytes| && bytes[..|chunks[0]|] == chunks[0]
  {
    if chunks == [] then [] else chunks[0] + Flatten(chunks[1..])
  }

  /** Where the stream cuts its chunks does not matter: concatenation distributes over them. */
  lemma {:induction false} FlattenAppend(a: seq<seq<Byte>>, b: seq<seq<Byte>>)
    ensures Flatten(a + b) == Flatten(a) + Flatten(b)
    decreases |a|
  {
    if a == [] {
      assert a + b == b;
    } else {
      assert (a + b)[0] == a[0];
      assert (a + b)[1..] == a[1..] + b;
      FlattenAppend(a[1..], b);
    }
  }

  /**
   * The body a request carries once its stream has ended. `parse` stands for
   * JSON.parse of the decoded bytes, None where it throws.
   */
  function ReceivedBody(chunks: seq<seq<Byte>>, parse: seq<Byte> -> Option<Value>): (body: Value)
    ensures body == Null <==> chunks == [] || parse(Flatten(chunks)) == None || parse(Flatten(chunks)) == Some(Null)
    ensures body != Null ==> parse(Flatten(chunks)) == Some(body)
  {
    if |chunks| > 0 then
      match parse(Flatten(chunks))
      case Some(v) => v
      case None => Null
    else Null
  }

  // ---------------------------------------------------------------- envelopes

  const NoQueryMessage := "A Shepard Query could not be found"
  const InvalidQueryMessage := "Invalid Shepard Query"
  const InvalidShepardMessage := "Invalid Shepard ID"
  const InvalidBehbbleMessage := "Invalid Behbble ID"

  /** The error envelope `{err, code}`. */
  function ErrorBody(err: Value, code: Value): (m: map<string, Value>)
    ensures m.Keys == {"err", "code"} && m["err"] == err && m["code"] == code
  {
    map["err" := err, "code" := code]
  }

  /** An error envelope the dispatcher raises itself. */
  function Fail(message: string, e: ErrorCode): (r: Response)
    ensures r.Json? && r.fields.Keys == {"err", "code"}
    ensures r.fields["err"] == Str(message) && r.fields["code"] == Num(Code(e))
    ensures 1 <= r.fields["code"].n <= 8
  {
    Json(ErrorBody(Str(message), Num(Code(e))))
  }

  /** The headers every response carries; the text page switches the content type. */
  const JsonHeaders: map<string, string> := map[
    "Content-Type" := "application/json",
    "Access-Control-Allow-Origin" := "*",
    "Access-Control-Request-Method" := "*",
    "Access-Control-Allow-Methods" := "GET, POST",
    "Access-Control-Allow-Headers" := "*"]

  function Headers(r: Response): (h: map<string, string>)
    ensures h.Keys == JsonHeaders.Keys
    ensures h["Content-Type"] == if r.PlainText? then "text/plain" else "application/json"
    ensures forall k :: k in h && k != "Content-Type" ==> h[k] == JsonHeaders[k]
  {
    if r.PlainText? then JsonHeaders["Content-Type" := "text/plain"] else JsonHeaders
  }

  // ---------------------------------------------------------------- defaults

  /** The fields `...(value || {})` copies out of a backend's answer. */
  function Overlaid(v: Value): (m: map<string, Value>)
    ensures !Truthy(v) ==> m == map[]
    ensures Truthy(v) ==> m == Spread(v)
    ensures v.Obj? ==> m == v.fields
    ensures !v.Obj? ==> forall k :: k in m ==> IsIndexKey(k)
  {
    Spread(Or(v, Obj(map[])))
  }

  /**
   * `{...defaults, ...(v || {})}`: the backend's fields win, the defaults
   * fill in the rest, and an answer that is not an object cannot displace a
   * default whose key is not an index.
   */
  function Overlay(defaults: map<string, Value>, v: Value): (m: map<string, Value>)
    ensures m.Keys == defaults.Keys + Overlaid(v).Keys
    ensures forall k :: k in Overlaid(v) ==> m[k] == Overlaid(v)[k]
    ensures forall k :: k in defaults && k !in Overlaid(v) ==> m[k] == defaults[k]
    ensures !v.Obj? ==> forall k :: k in defaults && !IsIndexKey(k) ==> m[k] == defaults[k]
    ensures v.Obj? ==> forall k :: k in defaults && k !in v.fields ==> m[k] == defaults[k]
  {
    defaults + Overlaid(v)
  }

  /** The `/info` defaults; `version` is read from an instance field that is never set. */
  const InfoDefaults: map<string, Value> := map[
    "is_farm" := Bool(true),
    "name" := Str("Untitled Farm"),
    "description" := Str("A quiet farm..."),
    "version" := Undefined]

  const StatusDefaults: map<string, Value> := map["capacity" := Num(0)]

  /**
   * `capacity >= 1`, for the capacity values the model covers: `>=` turns
   * true into 1, false and null into 0 and undefined into NaN.
   */
  function AtLeastOne(capacity: Value): (r: bool)
    ensures capacity.Num? ==> (r <==> capacity.n >= 1)
    ensures capacity.Bool? ==> (r <==> capacity.b)
    ensures Nullish(capacity) ==> !r
  {
    match capacity
    case Num(n) => n >= 1
    case Bool(b) => b
    case _ => false
  }

  /** The capacity check over a status object. */
  function AtCapacity(status: map<string, Value>): (r: bool)
    ensures r ==> "capacity" in status
    ensures "capacity" in status ==> (r <==> AtLeastOne(status["capacity"]))
  {
    "capacity" in status && AtLeastOne(status["capacity"])
  }

  // ---------------------------------------------------------------- backend outcomes

  /** How the checks `!result` and `result.err` sort a backend's value. */
  datatype Verdict = Falsy | Failed(err: Value, code: Value) | Succeeded(value: Value)

  function Classify(v: Value): (r: Verdict)
    ensures r.Falsy? <==> !Truthy(v)
    ensures r.Failed? <==> Truthy(v) && Truthy(Field(v, "err"))
    ensures r.Failed? ==> r.err == Field(v, "err") && Truthy(r.code)
    ensures r.Failed? && Truthy(Field(v, "code")) ==> r.code == Field(v, "code")
    ensures r.Failed? && !Truthy(Field(v, "code")) ==> r.code == Num(Code(CustomError))
    ensures r.Succeeded? ==> r.value == v && Truthy(v)
  {
    if !Truthy(v) then Falsy
    else if Truthy(Field(v, "err")) then Failed(Field(v, "err"), Or(Field(v, "code"), Num(Code(CustomError))))
    else Succeeded(v)
  }

  /**
   * A backend call with `.catch(err => ({err: err.toString(), code:
   * UNEXPECTED_ERROR}))` attached, then classified; None when the catch
   * handler itself throws. The object the catch builds goes through the same
   * checks as a value, so a rejection described by the empty string is not
   * reported as an error.
   */
  function Settle(o: Outcome): (r: Option<Verdict>)
    ensures r.None? <==> o.RejectedNullish?
    ensures o.Rejected? && o.description != "" ==> r == Some(Failed(Str(o.description), Num(Code(UnexpectedError))))
    ensures o.Rejected? && o.description == "" ==> r == Some(Succeeded(Obj(ErrorBody(Str(""), Num(Code(UnexpectedError))))))
    ensures o.Resolved? ==> r == Some(Classify(o.value))
  {
    match o
    case Resolved(v) => Some(Classify(v))
    case Rejected(d) => Some(Classify(Obj(ErrorBody(Str(d), Num(Code(UnexpectedError))))))
    case RejectedNullish => None
  }

  // ---------------------------------------------------------------- routes

  datatype Route = InfoRoute | StatusRoute | CallShepardRoute | ShepardRoute | BehbbleRoute | PageRoute

  /**
   * The first matching test, in order. Only the `/call_shepard` test depends
   * on the method, and the exact tests compare the whole URL, query string
   * included.
   */
  function RouteOf(httpMethod: string, url: string): (r: Route)
    ensures r == InfoRoute <==> url == "/info"
    ensures r == StatusRoute <==> url == "/status"
    ensures r == CallShepardRoute <==> url == "/call_shepard" && httpMethod == "POST"
    ensures r == ShepardRoute <==> StartsWith(url, "/shepard")
    ensures r == BehbbleRoute <==> StartsWith(url, "/behbble")
  {
    if url == "/info" then InfoRoute
    else if url == "/status" then StatusRoute
    else if url == "/call_shepard" && httpMethod == "POST" then
      assert url[1] != "/shepard"[1];
      CallShepardRoute
    else if StartsWith(url, "/shepard") then ShepardRoute
    else if StartsWith(url, "/behbble") then BehbbleRoute
    else PageRoute
  }

  /** `/info`: the defaults overlaid by the backend's answer. */
  function InfoResponse(o: Outcome): (r: Response)
    ensures o.Resolved? <==> r.Json?
    ensures r.Json? ==> r.fields == Overlay(InfoDefaults, o.value)
    ensures !r.Json? ==> r.Crash?
  {
    match o
    case Resolved(v) => Json(Overlay(InfoDefaults, v))
    case _ => Crash
  }

  /** `/status`: the answer over `{capacity: 0}` is both stored and sent. */
  function StatusReply(o: Outcome): (r: Reply)
    ensures r.call == Some(Status)
    ensures o.Resolved? <==> r.stored.Some?
    ensures o.Resolved? ==> r.stored == Some(Overlay(StatusDefaults, o.value))
    ensures r.stored.Some? ==> r.response == Json(r.stored.value) && "capacity" in r.stored.value
    ensures r.stored.None? ==> r.response.Crash?
  {
    match o
    case Resolved(v) =>
      var status := Overlay(StatusDefaults, v);
      Reply(Json(status), Some(Status), Some(status))
    case _ => Reply(Crash, Some(Status), None)
  }

  /** The two success shapes of `/call_shepard`: the choices if the result names any, its id otherwise. */
  function ShepardSuccess(v: Value): (m: map<string, Value>)
    requires Truthy(v)
    ensures "success" in m && m["success"] == Bool(true)
    ensures Field(v, "choices") != Undefined ==> m == map["success" := Bool(true), "choices" := Field(v, "choices")]
    ensures Field(v, "choices") == Undefined ==> m == map["success" := Bool(true), "shepard" := Field(v, "id")]
  {
    var choices := Field(v, "choices");
    if choices != Undefined then map["success" := Bool(true), "choices" := choices]
    else map["success" := Bool(true), "shepard" := Field(v, "id")]
  }

  /** The response to a `callShepard` outcome: exactly one of an error envelope and a success envelope. */
  function CallShepardResponse(o: Outcome): (r: Response)
    ensures r.Json? || r.Crash?
    ensures r.Crash? <==> o.RejectedNullish?
    ensures r.Json? ==> || r.fields.Keys == {"err", "code"}
                        || r.fields.Keys == {"success", "choices"}
                        || r.fields.Keys == {"success", "shepard"}
    ensures r.Json? && "success" in r.fields ==> r.fields["success"] == Bool(true)
    ensures o.Resolved? && !Truthy(o.value) ==> r == Fail(InvalidQueryMessage, InvalidShepardQuery)
    ensures o.Resolved? && Classify(o.value).Succeeded? ==> r == Json(ShepardSuccess(o.value))
  {
    match Settle(o)
    case None => Crash
    case Some(Falsy) => Fail(InvalidQueryMessage, InvalidShepardQuery)
    case Some(Failed(e, c)) => Json(ErrorBody(e, c))
    case Some(Succeeded(v)) => Json(ShepardSuccess(v))
  }

  /** `/call_shepard` with POST: validate the body's query, then ask the backend. */
  function CallShepardReply(body: Value, maxQueryLength: int, backend: Backend): (r: Reply)
    ensures r.stored.None?
    ensures Nullish(body) ==> r == Reply(Crash, None, None)
    ensures !Nullish(body) && Field(body, "query") == Undefined ==> r == Reply(Fail(NoQueryMessage, NoQueryProvided), None, None)
    ensures !Nullish(body) && Field(body, "query") != Undefined ==>
      && r.call.Some? && r.call.value.CallShepard?
      && StartsWith(JsString(Field(body, "query")), r.call.value.query)
      && (maxQueryLength >= 0 ==> |r.call.value.query| == Min(maxQueryLength, |JsString(Field(body, "query"))|))
      && (maxQueryLength < 0 ==> |r.call.value.query| == Max(|JsString(Field(body, "query"))| + maxQueryLength, 0))
      && r.call.value.isChoice == Truthy(Field(body, "isChoice"))
      && r.response == CallShepardResponse(backend(r.call.value))
  {
    if Nullish(body) then Reply(Crash, None, None)
    else
      var query := Field(body, "query");
      if query == Undefined then Reply(Fail(NoQueryMessage, NoQueryProvided), None, None)
      else
        var call := CallShepard(SliceTo(JsString(query), maxQueryLength), Truthy(Field(body, "isChoice")));
        Reply(CallShepardResponse(backend(call)), Some(call), None)
  }

  /** The response to a `getShepardBehbbles` outcome. */
  function ShepardResponse(o: Outcome): (r: Response)
    ensures r.Json? || r.Crash?
    ensures r.Crash? <==> o.RejectedNullish?
    ensures r.Json? ==> r.fields.Keys == {"err", "code"} || r.fields.Keys == {"behbbles"}
    ensures o.Resolved? && !Truthy(o.value) ==> r == Fail(InvalidShepardMessage, InvalidShepardId)
    ensures o.Resolved? && Classify(o.value).Succeeded? ==> r == Json(map["behbbles" := o.value])
  {
    match Settle(o)
    case None => Crash
    case Some(Falsy) => Fail(InvalidShepardMessage, InvalidShepardId)
    case Some(Failed(e, c)) => Json(ErrorBody(e, c))
    case Some(Succeeded(v)) => Json(map["behbbles" := v])
  }

  /** A URL starting with `/shepard`: the Shepard ID is the third piece of the path. */
  function ShepardReply(url: string, backend: Backend): (r: Reply)
    ensures r.stored.None?
    ensures !Present(Segment(url, 2)) ==> r == Reply(Fail(InvalidShepardMessage, InvalidShepardId), None, None)
    ensures Present(Segment(url, 2)) ==>
      && r.call == Some(GetShepardBehbbles(Split(url)[2]))
      && r.response == ShepardResponse(backend(r.call.value))
  {
    var shepardId := Segment(url, 2);
    if !Present(shepardId) then Reply(Fail(InvalidShepardMessage, InvalidShepardId), None, None)
    else
      var call := GetShepardBehbbles(shepardId.value);
      Reply(ShepardResponse(backend(call)), Some(call), None)
  }

  /** The response to a `getBehbble` outcome: on success the backend owns the response, so nothing is written. */
  function BehbbleResponse(o: Outcome): (r: Response)
    ensures r.Json? || r.Crash? || r.NoResponse?
    ensures r.Crash? <==> o.RejectedNullish?
    ensures r.Json? ==> r.fields.Keys == {"err", "code"}
    ensures o.Resolved? && !Truthy(o.value) ==> r == Fail(InvalidShepardMessage, InvalidShepardId)
    ensures r.NoResponse? <==> Settle(o).Some? && Settle(o).value.Succeeded?
  {
    match Settle(o)
    case None => Crash
    case Some(Falsy) => Fail(InvalidShepardMessage, InvalidShepardId)
    case Some(Failed(e, c)) => Json(ErrorBody(e, c))
    case Some(Succeeded(_)) => NoResponse
  }

  /** A URL starting with `/behbble`: the Shepard ID and the Behbble ID are the third and fourth pieces, checked in that order. */
  function BehbbleReply(url: string, backend: Backend): (r: Reply)
    ensures r.stored.None?
    ensures !Present(Segment(url, 2)) ==> r == Reply(Fail(InvalidShepardMessage, InvalidShepardId), None, None)
    ensures Present(Segment(url, 2)) && !Present(Segment(url, 3)) ==> r == Reply(Fail(InvalidBehbbleMessage, InvalidBehbbleId), None, None)
    ensures Present(Segment(url, 2)) && Present(Segment(url, 3)) ==>
      && r.call == Some(GetBehbble(Split(url)[2], Split(url)[3]))
      && r.response == BehbbleResponse(backend(r.call.value))
  {
    var shepardId := Segment(url, 2);
    var behbbleId := Segment(url, 3);
    if !Present(shepardId) then Reply(Fail(InvalidShepardMessage, InvalidShepardId), None, None)
    else if !Present(behbbleId) then Reply(Fail(InvalidBehbbleMessage, InvalidBehbbleId), None, None)
    else
      var call := GetBehbble(shepardId.value, behbbleId.value);
      Reply(BehbbleResponse(backend(call)), Some(call), None)
  }

  const PageIntro := "This is a Behbble server!\n\nName: "
  const DescriptionLabel := "\nDescription: "

  /**
   * `text` is laid out as the page: the introduction ending in "Name: ",
   * the name, the description label, the description and a final newline,
   * each at its own fixed place.
   */
  predicate PageLayout(text: string, name: string, description: string) {
    var nameEnd := |PageIntro| + |name|;
    && |text| == nameEnd + |DescriptionLabel| + |description| + 1
    && text[..|PageIntro|] == PageIntro
    && text[|PageIntro|..nameEnd] == name
    && text[nameEnd..nameEnd + |DescriptionLabel|] == DescriptionLabel
    && text[nameEnd + |DescriptionLabel|..|text| - 1] == description
    && text[|text| - 1] == '\n'
  }

  lemma PageLayoutOfParts(name: string, description: string)
    ensures PageLayout(PageIntro + name + DescriptionLabel + description + "\n", name, description)
  {
    var text := PageIntro + name + DescriptionLabel + description + "\n";
    var nameEnd := |PageIntro| + |name|;
    assert text[..|PageIntro|] == PageIntro;
    assert text[|PageIntro|..nameEnd] == name;
    assert text[nameEnd..nameEnd + |DescriptionLabel|] == DescriptionLabel;
    assert text[nameEnd + |DescriptionLabel|..|text| - 1] == description;
  }

  /** The text page naming and describing the Farm. */
  function PageText(name: Value, description: Value): (text: string)
    ensures PageLayout(text, JsString(name), JsString(description))
  {
    var n := JsString(name);
    var d := JsString(description);
    PageLayoutOfParts(n, d);
    PageIntro + n + DescriptionLabel + d + "\n"
  }

  /** Any other URL: a plain-text page naming and describing the Farm. */
  function PageResponse(o: Outcome): (r: Response)
    ensures r.PlainText? || r.Crash?
    ensures r.PlainText? <==> o.Resolved? && !Nullish(o.value)
    ensures r.PlainText? ==> r.text == PageText(Field(o.value, "name"), Field(o.value, "description"))
  {
    match o
    case Resolved(v) =>
      if Nullish(v) then Crash else PlainText(PageText(Field(v, "name"), Field(v, "description")))
    case _ => Crash
  }

  /** Handles one request against a backend, with the Farm's effective query length limit. */
  function Dispatch(req: Request, maxQueryLength: int, backend: Backend): (r: Reply)
    ensures r.stored.Some? <==> req.url == "/status" && backend(Status).Resolved?
    ensures r.stored.Some? ==> r.response == Json(r.stored.value) && "capacity" in r.stored.value
    ensures r.response.PlainText? ==> RouteOf(req.httpMethod, req.url) == PageRoute
    ensures r.response.NoResponse? ==> StartsWith(req.url, "/behbble") && r.call.Some? && r.call.value.GetBehbble?
    ensures r.call.None? ==> r.response.Crash? || (r.response.Json? && r.response.fields.Keys == {"err", "code"})
  {
    match RouteOf(req.httpMethod, req.url)
    case InfoRoute => Reply(InfoResponse(backend(Info)), Some(Info), None)
    case StatusRoute => StatusReply(backend(Status))
    case CallShepardRoute => CallShepardReply(req.body, maxQueryLength, backend)
    case ShepardRoute => ShepardReply(req.url, backend)
    case BehbbleRoute => BehbbleReply(req.url, backend)
    case PageRoute => Reply(PageResponse(backend(InfoForPage)), Some(InfoForPage), None)
  }
}
