/**
 * What the dispatcher promises across requests and routes, stated over
 * Dispatch and proved from the route functions.
 */
module DispatchProperties {
  import opened JsValues
  import opened Paths
  import opened ErrorCodes
  import opened Dispatcher

  // ---------------------------------------------------------------- routing

  /** A `/call_shepard` request with any method other than POST gets the text page. */
  lemma CallShepardNeedsPost(req: Request, maxQueryLength: int, backend: Backend)
    requires req.url == "/call_shepard" && req.httpMethod != "POST"
    ensures Dispatch(req, maxQueryLength, backend) == Reply(PageResponse(backend(InfoForPage)), Some(InfoForPage), None)
  {
    assert RouteOf(req.httpMethod, req.url) == PageRoute;
  }

  /** The exact routes do not match once a query string is appended; those URLs get the text page. */
  lemma {:induction false} QueryStringMissesExactRoutes(httpMethod: string, base: string, query: string)
    requires base == "/info" || base == "/status" || base == "/call_shepard"
    requires |query| > 0 && query[0] == '?'
    ensures RouteOf(httpMethod, base + query) == PageRoute
  {
    var url := base + query;
    assert url[1] == base[1] && url[2] == base[2];
    assert |url| > |base|;
  }

  /** The prefix routes match any URL that merely begins with their name. */
  lemma PrefixRoutesMatchLongerNames(httpMethod: string, rest: string)
    ensures RouteOf(httpMethod, "/shepard" + rest) == ShepardRoute
    ensures RouteOf(httpMethod, "/behbble" + rest) == BehbbleRoute
  {
  }

  // ---------------------------------------------------------------- /call_shepard

  /** A query-less object body gets exactly `{err, code: 5}`, and the backend is not called. */
  lemma MissingQuery(req: Request, maxQueryLength: int, backend: Backend)
    requires req.url == "/call_shepard" && req.httpMethod == "POST"
    requires req.body.Obj? && (("query" in req.body.fields) ==> req.body.fields["query"] == Undefined)
    ensures Dispatch(req, maxQueryLength, backend).call.None?
    ensures Dispatch(req, maxQueryLength, backend).response
         == Json(map["err" := Str("A Shepard Query could not be found"), "code" := Num(5)])
  {
  }

  /** An empty or unparseable body is null, and reading its query throws before any backend call. */
  lemma NullBodyCrashes(chunks: seq<seq<Byte>>, parse: seq<Byte> -> Option<Value>, maxQueryLength: int, backend: Backend)
    requires chunks == [] || parse(Flatten(chunks)).None?
    ensures Dispatch(Request("POST", "/call_shepard", ReceivedBody(chunks, parse)), maxQueryLength, backend)
         == Reply(Crash, None, None)
  {
  }

  /**
   * The query the backend receives is `String(query)` cut to the limit (whole
   * when shorter), and `isChoice` is the truthiness of the body's flag.
   */
  lemma CallShepardArguments(body: map<string, Value>, maxQueryLength: int, backend: Backend)
    requires "query" in body && body["query"] != Undefined
    requires maxQueryLength > 0
    ensures var r := Dispatch(Request("POST", "/call_shepard", Obj(body)), maxQueryLength, backend);
            var q := JsString(body["query"]);
            && r.call.Some?
            && r.call.value == CallShepard(r.call.value.query, "isChoice" in body && Truthy(body["isChoice"]))
            && (|q| <= maxQueryLength ==> r.call.value.query == q)
            && (|q| > maxQueryLength ==> r.call.value.query == q[..maxQueryLength])
            && r.response == CallShepardResponse(backend(r.call.value))
  {
  }

  /** A query "hello" with `isChoice: true` reaches the backend unchanged. */
  lemma HelloReachesBackend(backend: Backend)
    ensures Dispatch(Request("POST", "/call_shepard", Obj(map["query" := Str("hello"), "isChoice" := Bool(true)])), 256, backend).call
         == Some(CallShepard("hello", true))
  {
  }

  /** Only the two success shapes and the error shape are ever sent for `/call_shepard`, never a mix. */
  lemma CallShepardEnvelopes(req: Request, maxQueryLength: int, backend: Backend)
    requires req.url == "/call_shepard" && req.httpMethod == "POST"
    ensures var r := Dispatch(req, maxQueryLength, backend).response;
            r.Json? ==>
              || ("err" in r.fields && "code" in r.fields && "success" !in r.fields)
              || (r.fields["success"] == Bool(true) && "err" !in r.fields && |r.fields| == 2)
  {
  }

  // ---------------------------------------------------------------- backend outcomes

  /**
   * The three routes that ask the backend treat its outcome alike: a
   * described rejection is code 1 with the description, a value carrying a
   * truthy `err` is forwarded with its own code or 8, a rejection by null or
   * undefined throws, and only the code for a falsy value differs by route.
   */
  lemma SameOutcomeHandling(o: Outcome)
    ensures o.Rejected? && o.description != "" ==>
      var e := Json(map["err" := Str(o.description), "code" := Num(1)]);
      CallShepardResponse(o) == e && ShepardResponse(o) == e && BehbbleResponse(o) == e
    ensures o.Resolved? && Truthy(o.value) && Truthy(Field(o.value, "err")) ==>
      var e := Json(map["err" := Field(o.value, "err"), "code" := Or(Field(o.value, "code"), Num(8))]);
      CallShepardResponse(o) == e && ShepardResponse(o) == e && BehbbleResponse(o) == e
    ensures o.Resolved? && !Truthy(o.value) ==>
      && CallShepardResponse(o) == Json(map["err" := Str("Invalid Shepard Query"), "code" := Num(3)])
      && ShepardResponse(o) == Json(map["err" := Str("Invalid Shepard ID"), "code" := Num(2)])
      && BehbbleResponse(o) == Json(map["err" := Str("Invalid Shepard ID"), "code" := Num(2)])
    ensures o.RejectedNullish? ==>
      CallShepardResponse(o) == Crash && ShepardResponse(o) == Crash && BehbbleResponse(o) == Crash
  {
  }

  /**
   * A rejection described by the empty string leaves an object whose `err`
   * is falsy, so every route takes its success path for it.
   */
  lemma EmptyRejectionIsNotReported()
    ensures CallShepardResponse(Rejected("")) == Json(map["success" := Bool(true), "shepard" := Undefined])
    ensures ShepardResponse(Rejected("")) == Json(map["behbbles" := Obj(map["err" := Str(""), "code" := Num(1)])])
    ensures BehbbleResponse(Rejected("")) == NoResponse
  {
  }

  /** Any truthy value without a truthy `err` is a success, an empty array included. */
  lemma EmptyArrayIsSuccess()
    ensures ShepardResponse(Resolved(Arr([]))) == Json(map["behbbles" := Arr([])])
    ensures CallShepardResponse(Resolved(Arr([]))) == Json(map["success" := Bool(true), "shepard" := Undefined])
    ensures BehbbleResponse(Resolved(Arr([]))) == NoResponse
  {
  }

  // ---------------------------------------------------------------- path validation

  /** Splitting two slash-free pieces joined by a slash. */
  lemma SplitTwo(a: string, b: string)
    requires '/' !in a && '/' !in b
    ensures Split(a + "/" + b) == [a, b]
  {
    assert [a, b][1..] == [b];
    assert Join([a, b]) == a + "/" + b;
    SplitJoin([a, b]);
  }

  /** Splitting three slash-free pieces joined by slashes. */
  lemma SplitThree(a: string, b: string, c: string)
    requires '/' !in a && '/' !in b && '/' !in c
    ensures Split(a + "/" + b + "/" + c) == [a, b, c]
  {
    assert [a, b, c][1..] == [b, c];
    assert [b, c][1..] == [c];
    assert Join([b, c]) == b + "/" + c;
    assert Join([a, b, c]) == a + "/" + (b + "/" + c);
    assert a + "/" + (b + "/" + c) == a + "/" + b + "/" + c;
    SplitJoin([a, b, c]);
  }

  const ShepardIdError := Reply(Json(map["err" := Str("Invalid Shepard ID"), "code" := Num(2)]), None, None)

  /** Any `/shepard` URL whose third piece is missing or empty gets code 2, without a backend call. */
  lemma ShepardIdMissing(url: string, backend: Backend, httpMethod: string, body: Value, maxQueryLength: int)
    requires StartsWith(url, "/shepard") && !Present(Segment(url, 2))
    ensures Dispatch(Request(httpMethod, url, body), maxQueryLength, backend) == ShepardIdError
  {
    assert RouteOf(httpMethod, url) == ShepardRoute;
    assert ShepardReply(url, backend) == ShepardIdError;
  }

  /** `/shepard` lacks an ID: code 2, without a backend call. */
  lemma ShepardWithoutId(backend: Backend, httpMethod: string, body: Value, maxQueryLength: int)
    ensures Dispatch(Request(httpMethod, "/shepard", body), maxQueryLength, backend) == ShepardIdError
  {
    var url := "/shepard";
    assert url[..8] == "/shepard";
    assert url == "" + "/" + "shepard";
    SplitTwo("", "shepard");
    assert Segment(url, 2) == None;
    ShepardIdMissing(url, backend, httpMethod, body, maxQueryLength);
  }

  /** `/shepard/` has an empty ID, which counts as none: code 2, without a backend call. */
  lemma ShepardWithEmptyId(backend: Backend, httpMethod: string, body: Value, maxQueryLength: int)
    ensures Dispatch(Request(httpMethod, "/shepard/", body), maxQueryLength, backend) == ShepardIdError
  {
    var url := "/shepard/";
    assert url[..8] == "/shepard";
    assert url == "" + "/" + "shepard" + "/" + "";
    SplitThree("", "shepard", "");
    assert Segment(url, 2) == Some("");
    ShepardIdMissing(url, backend, httpMethod, body, maxQueryLength);
  }

  /** `/shepard/<id>` asks the backend for that ID's Behbbles. */
  lemma ShepardLookup(id: string, backend: Backend, httpMethod: string, body: Value, maxQueryLength: int)
    requires id != "" && '/' !in id
    ensures Dispatch(Request(httpMethod, "/shepard/" + id, body), maxQueryLength, backend).call == Some(GetShepardBehbbles(id))
  {
    var url := "/shepard/" + id;
    assert url[..8] == "/shepard";
    assert url == "" + "/" + "shepard" + "/" + id;
    SplitThree("", "shepard", id);
    assert Segment(url, 2) == Some(id);
  }

  /** `/behbble` lacks the Shepard ID: code 2. */
  lemma BehbbleWithoutShepardId(backend: Backend, httpMethod: string, body: Value, maxQueryLength: int)
    ensures Dispatch(Request(httpMethod, "/behbble", body), maxQueryLength, backend) == ShepardIdError
  {
    var url := "/behbble";
    assert url[..8] == "/behbble";
    assert url[1] != "/shepard"[1];
    assert url == "" + "/" + "behbble";
    SplitTwo("", "behbble");
    assert Segment(url, 2) == None;
    BehbbleChecksShepardIdFirst(url, backend, httpMethod, body, maxQueryLength);
  }

  /** `/behbble/<id>` lacks the Behbble ID: code 4. */
  lemma BehbbleWithoutBehbbleId(id: string, backend: Backend, httpMethod: string, body: Value, maxQueryLength: int)
    requires id != "" && '/' !in id
    ensures Dispatch(Request(httpMethod, "/behbble/" + id, body), maxQueryLength, backend)
         == Reply(Json(map["err" := Str("Invalid Behbble ID"), "code" := Num(4)]), None, None)
  {
    var url := "/behbble/" + id;
    assert url[..8] == "/behbble";
    assert url[1] != "/shepard"[1];
    assert url == "" + "/" + "behbble" + "/" + id;
    SplitThree("", "behbble", id);
    assert Segment(url, 2) == Some(id) && Segment(url, 3) == None;
    BehbbleIdMissing(url, backend, httpMethod, body, maxQueryLength);
  }

  /** Any `/behbble` URL with a Shepard ID but a missing or empty fourth piece gets code 4, without a backend call. */
  lemma BehbbleIdMissing(url: string, backend: Backend, httpMethod: string, body: Value, maxQueryLength: int)
    requires StartsWith(url, "/behbble") && Present(Segment(url, 2)) && !Present(Segment(url, 3))
    ensures Dispatch(Request(httpMethod, url, body), maxQueryLength, backend)
         == Reply(Json(map["err" := Str("Invalid Behbble ID"), "code" := Num(4)]), None, None)
  {
    assert RouteOf(httpMethod, url) == BehbbleRoute;
  }

  /** A missing Shepard ID is reported first, even when the Behbble ID is missing too. */
  lemma BehbbleChecksShepardIdFirst(url: string, backend: Backend, httpMethod: string, body: Value, maxQueryLength: int)
    requires StartsWith(url, "/behbble") && !Present(Segment(url, 2))
    ensures Dispatch(Request(httpMethod, url, body), maxQueryLength, backend) == ShepardIdError
  {
    assert RouteOf(httpMethod, url) == BehbbleRoute;
  }

  // ---------------------------------------------------------------- /info and /status

  /** `/info` always says `is_farm: true` unless the backend's object says otherwise. */
  lemma InfoKeepsIsFarm(v: Value, httpMethod: string, body: Value, maxQueryLength: int, backend: Backend)
    requires backend(Info) == Resolved(v)
    requires !(v.Obj? && "is_farm" in v.fields)
    ensures var r := Dispatch(Request(httpMethod, "/info", body), maxQueryLength, backend).response;
            r.Json? && "is_farm" in r.fields && r.fields["is_farm"] == Bool(true)
  {
    assert !IsIndexKey("is_farm") by {
      assert !IsDigit("is_farm"[0]);
    }
  }

  /** `/status` always reports a capacity, 0 unless the backend's object gives one. */
  lemma StatusKeepsCapacity(v: Value, httpMethod: string, body: Value, maxQueryLength: int, backend: Backend)
    requires backend(Status) == Resolved(v)
    ensures var r := Dispatch(Request(httpMethod, "/status", body), maxQueryLength, backend);
            && r.stored.Some? && r.response == Json(r.stored.value)
            && "capacity" in r.stored.value
            && (v.Obj? && "capacity" in v.fields ==> r.stored.value["capacity"] == v.fields["capacity"])
            && (!(v.Obj? && "capacity" in v.fields) ==> r.stored.value["capacity"] == Num(0))
  {
    assert !IsIndexKey("capacity") by {
      assert !IsDigit("capacity"[0]);
    }
  }

  /**
   * After a `/status` request the capacity check reads the backend's own
   * capacity, and a status without one is never at capacity.
   */
  lemma CapacityFollowsStatus(v: Value, httpMethod: string, body: Value, maxQueryLength: int, backend: Backend)
    requires backend(Status) == Resolved(v)
    ensures var stored := Dispatch(Request(httpMethod, "/status", body), maxQueryLength, backend).stored.value;
            AtCapacity(stored) <==> v.Obj? && "capacity" in v.fields && AtLeastOne(v.fields["capacity"])
  {
    StatusKeepsCapacity(v, httpMethod, body, maxQueryLength, backend);
  }

  /** Requests to other routes store nothing. */
  lemma OnlyStatusStores(req: Request, maxQueryLength: int, backend: Backend)
    requires req.url != "/status"
    ensures Dispatch(req, maxQueryLength, backend).stored.None?
  {
  }
}
