# Farm request dispatcher, modelled in Dafny

A Farm is a small HTTP server that fronts a pluggable backend, called the
Shepard, and the artifacts it produces, called Behbbles. This project models
the Farm's request dispatcher. The transport is stripped away, so handling one
request becomes a function. It takes the request's method, its URL, its parsed
body, the query length limit and a backend. The backend is an abstract map
from each call the dispatcher can make to how that call ends. The function
returns one `Reply`, with three parts:

- the response: a JSON object, the plain-text page, nothing at all (the
  `/behbble` success path), or a crash (the request handler throws before
  writing anything; see "## Left out" for what that does to the process);
- the backend call the dispatcher made, with its exact arguments, or none;
- the status object the request stored as the Farm's last status, or none.

The one mutable piece of the Farm, `lastStatus`, is a field of the class
`FarmServer.Farm`. Its constructor applies the settings defaults. Its method
`HandleRequest` runs the dispatcher and writes the field only when a `/status`
call succeeds. `IsAtCapacity` reads the field.

Modules:

- `JsValues` (values.dfy): the JavaScript values the dispatcher touches, with
  truthiness, property reads, `||`, object spread and `String(v)`.
- `Paths` (paths.dfy): `startsWith`, `split('/')` with its inverse `join('/')`,
  segment extraction and `slice(0, n)`.
- `ErrorCodes` (errorcodes.dfy): the eight error codes, numbered 1 to 8.
- `Dispatcher` (dispatcher.dfy): the body rule, routing, the per-route handlers,
  the classification of backend outcomes, and `Dispatch`.
- `FarmServer` (farm.dfy): the settings and the `Farm` class.
- `DispatchProperties` (properties.dfy): lemmas that relate requests, routes
  and backend outcomes.

### Behaviour of the code worth knowing

- The `.catch` on each backend call turns a rejection into `{err, code: 1}`.
  That object then goes through the same `err` truthiness check as a normal
  value. So a rejection whose description is the empty string is NOT reported
  as UNEXPECTED_ERROR. It takes the route's success path instead
  (`EmptyRejectionIsNotReported`).
- A rejection with `null` or `undefined` makes `err.toString()` throw inside
  the catch handler. The handler then throws instead of sending an envelope.
- `/info` and `/status` do not catch a failing backend call, so a failure
  there makes the handler throw.
- On `/call_shepard`, a null body (empty or unparseable) makes `body.query`
  throw. It does not produce NO_QUERY_PROVIDED.
- A `query` of `null` passes the `typeof` check and is sent as the string
  `"null"`.
- The cross-origin headers are set on every response, the text page included.
- `/info` reads `this.version`, but `version` is a static field. So the
  default `version` is `undefined`.
- The text page reads `name` and `description` from `info()` without awaiting
  it. The model takes that unawaited return value as the input of the
  `InfoForPage` call.

## Model

| member | source | states |
|---|---|---|
| `ErrorCodes.Code` | Farm.js:6-15 | every error code goes on the wire as a number from 1 to 8 |
| `ErrorCodes.FromCode` | Farm.js:6-15 | exactly the numbers 1..8 denote a code; each denotes the one code that maps back to it, so the numbering is a bijection |
| `JsValues.Truthy` | Farm.js:78-161 | the tests `!x` and `!!x` treat exactly undefined, null, false, 0 and "" as false; every array and object, empty or not, is true |
| `JsValues.Field` | Farm.js:68-102 | a property read gives an object's own field; any other read (a missing key, a number, a string, an array) gives undefined |
| `JsValues.NatToString` | Farm.js:74 | the decimal spelling of a non-negative number is a non-empty string of digits with no leading zero (only 0 itself starts with "0") |
| `JsValues.NatToStringRoundTrip` | Farm.js:74 | reading a spelled number back gives the number, so distinct indices have distinct keys |
| `JsValues.IntToString` | Farm.js:74 | `String(n)` is the decimal spelling of `n`: its digits read back as `n` (as `-n` after the minus sign of a negative `n`), with no leading zero except for 0 itself |
| `JsValues.IntToStringInjective` | Farm.js:74 | distinct integers have distinct spellings |
| `JsValues.JsString` | Farm.js:74 | `String(v)` gives "undefined", "null", "true"/"false", the digits that read back as a number, the string itself, "[object Object]" for an object; an array gives "" when empty, its one element's spelling, or the first element's spelling, a comma and the join of the remaining elements |
| `JsValues.ElementString` | Farm.js:74 | inside an array, null and undefined elements are spelled as "" and every other element as `String` spells it |
| `JsValues.JoinItems` | Farm.js:74 | the array join gives "" for no elements, the element's spelling for one, and otherwise the first spelling followed by a comma and the rest |
| `JsValues.JoinItemsSeparators` | Farm.js:74 | the join puts exactly one comma between neighbouring elements: with comma-free spellings the result holds one comma fewer than there are elements |
| `JsValues.IndexMap` | Farm.js:56 | spreading an array maps each index key to its element, and every key is an index key |
| `JsValues.IndexMapKeys` | Farm.js:56-61 | spreading an array gives exactly the keys "0" to the last index, no more |
| `JsValues.Spread` | Farm.js:56-61 | spreading an object copies its fields; an array or a string gives exactly its index keys, each mapped to its element or character; anything else gives no keys |
| `Paths.StartsWithAppend` | Farm.js:106-135 | `startsWith(prefix)` holds exactly when the URL is the prefix followed by some rest |
| `Paths.Split` | Farm.js:136 | `split('/')` gives at least one piece, no piece holds a slash, and joining the pieces with '/' gives back the URL |
| `Paths.SplitJoin` | Farm.js:136 | splitting a join of slash-free pieces returns those pieces, so the decomposition is unique |
| `Paths.Segment` | Farm.js:137-138 | `url.split('/')[i]` exists exactly when the URL has more than `i` pieces; it is then the `i`-th piece of the split, which never contains a slash |
| `Paths.Present` | Farm.js:109-145 | the piece passes the `!id` check exactly when it exists and is non-empty, so a missing piece and an empty one fail it alike |
| `Paths.SliceTo` | Farm.js:74 | `slice(0, n)` returns a prefix of length `min(n, len)` for `n >= 0`, and drops `-n` characters from the end for `n < 0` |
| `Dispatcher.Flatten` | Farm.js:229 | `Buffer.concat` gives no bytes for no chunks, a single chunk's own bytes, and otherwise begins with the first chunk's bytes |
| `Dispatcher.FlattenAppend` | Farm.js:226-229 | concatenating two runs of chunks is concatenating their concatenations, so where the stream cuts its chunks does not matter |
| `Dispatcher.ReceivedBody` | Farm.js:229 | the body is null exactly when no chunk arrived, parsing failed, or the text parsed to null; otherwise it is the parse result |
| `Dispatcher.Headers` | Farm.js:44-48 | every response carries the same five headers; only the text page switches the content type to text/plain |
| `JsValues.Or` | Farm.js:27-164 | the or-operator gives `a` when `a` is truthy and `b` otherwise, and it is truthy exactly when one of them is |
| `Dispatcher.Overlaid` | Farm.js:56-61 | spreading an answer or the empty object copies nothing from a falsy answer, and otherwise exactly what spreading the answer itself copies: an object's own fields, each index of an array or string with its element, nothing from a number or boolean |
| `Dispatcher.ErrorBody` | Farm.js:80-94 | an error envelope has exactly the keys `err` and `code`, holding the given values |
| `Dispatcher.Fail` | Farm.js:69-72 | an envelope the dispatcher raises itself carries its message as `err` and the error's wire number from 1 to 8 as `code` |
| `Dispatcher.Overlay` | Farm.js:51-62 | defaults overlaid by the backend's answer: backend keys win, defaults fill the rest, and a non-object answer cannot displace a named default |
| `Dispatcher.Classify` | Farm.js:86-95 | a falsy value is invalid; a truthy value with a truthy `err` is forwarded with its own truthy code or 8; anything else is a success carrying the value |
| `Dispatcher.Settle` | Farm.js:76-84 | a described rejection becomes `{err: description, code: 1}` when the description is non-empty; a null or undefined rejection crashes; a value is classified as is |
| `Dispatcher.RouteOf` | Farm.js:50-176 | the routes are `/info` exactly, `/status` exactly, `/call_shepard` exactly with POST, a `/shepard` prefix, a `/behbble` prefix, and the text page otherwise; the tests never overlap |
| `Dispatcher.InfoResponse` | Farm.js:50-57 | `/info` sends the defaults overlaid by the backend's answer, and crashes if the call fails |
| `Dispatcher.StatusReply` | Farm.js:58-66 | `/status` stores exactly the object it sends, the backend's answer overlaid on `{capacity: 0}`, which always holds a capacity; a failed call stores nothing |
| `Dispatcher.AtLeastOne` | Farm.js:185 | `>= 1` holds for a number at least 1 and for true, and never for false, null or undefined |
| `Dispatcher.AtCapacity` | Farm.js:184-186 | a status object is at capacity only when it holds a capacity, and then exactly when that capacity is at least 1 |
| `Dispatcher.ShepardSuccess` | Farm.js:97-105 | success is `{success: true, choices}` when `choices` is defined, and `{success: true, shepard: id}` otherwise |
| `Dispatcher.CallShepardResponse` | Farm.js:79-105 | the response has exactly one shape: an error envelope or one of the two success envelopes; a falsy result gives code 3; a successful result gets exactly the success envelope built from it |
| `Dispatcher.CallShepardReply` | Farm.js:67-78 | a null body crashes; a missing query gives code 5 with no call; otherwise the backend gets `String(query)` cut to the limit (for a negative limit, with that many characters dropped from the end) and the truthiness of `isChoice` |
| `Dispatcher.ShepardResponse` | Farm.js:114-134 | a falsy result gives code 2; an `err` result is forwarded; a success wraps the value as `{behbbles}` |
| `Dispatcher.ShepardReply` | Farm.js:106-113 | a missing or empty third path piece gives code 2 without a call; otherwise that piece is the ID passed to the backend |
| `Dispatcher.BehbbleResponse` | Farm.js:150-166 | a falsy result gives code 2; an `err` result is forwarded; nothing is written exactly when the outcome is a success |
| `Dispatcher.BehbbleReply` | Farm.js:135-149 | the Shepard ID is checked first (code 2), then the Behbble ID (code 4), and only then is the backend called with both |
| `Dispatcher.PageText` | Farm.js:171-175 | the page is the banner and "Name: ", then `String(name)`, then "\nDescription: ", then `String(description)`, then a final newline; each part sits at its own fixed place |
| `Dispatcher.PageResponse` | Farm.js:167-176 | the text page names and describes the Farm from `info()`; it crashes when `info()` throws or returns null |
| `Dispatcher.Dispatch` | Farm.js:50-176 | only a successful `/status` stores a status, and it is the object sent; nothing is written only on `/behbble`; a request without a backend call gets an error envelope or crashes |
| `FarmServer.EffectiveMaxQueryLength` | Farm.js:31 | a missing or zero limit falls back to 256; any other limit is kept; the limit is never 0 |
| `FarmServer.Farm.constructor` | Farm.js:25-32 | the last status starts as `{capacity: 0}` overlaid by the configured status, and the limit is the effective one |
| `FarmServer.Farm.IsAtCapacity` | Farm.js:184-186 | reads the capacity that the last status always holds: true exactly when it is a number at least 1 or true; false for false, null and undefined |
| `FarmServer.Farm.HandleRequest` | Farm.js:58-66 | the reply is `Dispatch`'s; the last status changes only when a `/status` call succeeds, and then it becomes the object sent; the capacity key is always kept |
| `FarmServer.StatusTwice` | Farm.js:64 | after two `/status` requests in a row, when the second succeeds the last status is exactly its object, with nothing left from the first, whether or not the first succeeded |
| `DispatchProperties.CallShepardNeedsPost` | Farm.js:67 | a `/call_shepard` request with any method other than POST gets the text page |
| `DispatchProperties.QueryStringMissesExactRoutes` | Farm.js:50-67 | `/info?...`, `/status?...` and `/call_shepard?...` get the text page |
| `DispatchProperties.PrefixRoutesMatchLongerNames` | Farm.js:106-135 | any URL beginning with `/shepard` or `/behbble` takes that route |
| `DispatchProperties.MissingQuery` | Farm.js:68-72 | an object body without a query gets exactly `{err, code: 5}`, and the backend is not called |
| `DispatchProperties.NullBodyCrashes` | Farm.js:68 | an empty or unparseable body makes `/call_shepard` crash before any backend call |
| `DispatchProperties.CallShepardArguments` | Farm.js:74-78 | the backend gets `String(query)`, whole if it fits and cut to the limit if not, plus the truthiness of `isChoice` |
| `DispatchProperties.HelloReachesBackend` | Farm.js:74-78 | `{query: "hello", isChoice: true}` reaches the backend as ("hello", true) |
| `DispatchProperties.CallShepardEnvelopes` | Farm.js:86-105 | `/call_shepard` never sends an object that has both `err` and `success` |
| `DispatchProperties.SameOutcomeHandling` | Farm.js:79-166 | all three backend routes handle a rejection, a null rejection and an `err` result the same way; only the code for a falsy result differs (3, 2, 2) |
| `DispatchProperties.EmptyRejectionIsNotReported` | Farm.js:79-84 | a rejection described by "" takes each route's success path |
| `DispatchProperties.EmptyArrayIsSuccess` | Farm.js:121-134 | an empty array is truthy, so it is a success on every backend route |
| `DispatchProperties.ShepardIdMissing` | Farm.js:106-112 | for any method, body and limit, a `/shepard` URL whose third piece is missing or empty gets code 2 without a backend call |
| `DispatchProperties.ShepardWithoutId` | Farm.js:107-112 | for any method, body and limit, `/shepard` gets code 2 without a backend call |
| `DispatchProperties.ShepardWithEmptyId` | Farm.js:107-112 | for any method, body and limit, `/shepard/` gets code 2 without a backend call |
| `DispatchProperties.ShepardLookup` | Farm.js:107-114 | for any method, body and limit, `/shepard/<id>` asks the backend for exactly that ID |
| `DispatchProperties.BehbbleWithoutShepardId` | Farm.js:136-143 | for any method, body and limit, `/behbble` gets code 2 without a backend call |
| `DispatchProperties.BehbbleWithoutBehbbleId` | Farm.js:136-148 | for any method, body and limit, `/behbble/<id>` gets code 4 without a backend call |
| `DispatchProperties.BehbbleIdMissing` | Farm.js:135-148 | for any method, body and limit, a `/behbble` URL with a Shepard ID but a missing or empty fourth piece gets code 4 without a backend call |
| `DispatchProperties.BehbbleChecksShepardIdFirst` | Farm.js:140-148 | for any method, body and limit, a missing Shepard ID gives code 2 without a backend call, whatever the Behbble ID is |
| `DispatchProperties.InfoKeepsIsFarm` | Farm.js:51-57 | for any method, body and limit, `/info` says `is_farm: true` unless the backend's object sets `is_farm` itself |
| `DispatchProperties.StatusKeepsCapacity` | Farm.js:59-66 | for any method, body and limit, `/status` stores and sends the backend's capacity, or 0 when the backend gives none |
| `DispatchProperties.CapacityFollowsStatus` | Farm.js:64-66 | for any method, body and limit, after `/status` the capacity check holds exactly when the backend's object gives a capacity of at least 1 |
| `DispatchProperties.OnlyStatusStores` | Farm.js:64 | no request to a URL other than `/status` stores a status |

## Left out

- Server creation, `listen`, the port, the TLS options and the Promise that `init` returns (Farm.js:17-23, 35-38, 179-181) are transport. So is the initial `await this.status()` in `init`, whose result is discarded.
- The stream events of `recieveRequestData` (Farm.js:216-233) are I/O. Only the rule for the collected body is kept. A transport error while reading makes the listener throw and is not modelled.
- `JSON.parse` and the decoding of the collected bytes are one abstract parse function. `JSON.stringify` is not modelled, so a `Json` response is the object before serialization. Key order is not modelled, and neither is stringify dropping keys whose value is `undefined`.
- The request headers are read but never used by the dispatcher, so they are not inputs. The `request` and `response` handles passed to the backend are not modelled.
- The backend is an abstract input; the default stub methods (Farm.js:188-213) are not modelled. On `/call_shepard`, `/shepard/<id>` and `/behbble/<a>/<b>` (Farm.js:76, 114, 150) the model assumes the backend method returns a promise. A method that throws synchronously ends the request with its own exception before `.catch` is read. A method that returns a plain value makes the `.catch` call itself throw a TypeError. The default stubs of `callShepard`, `getShepardBehbbles` and `getBehbble` return plain values (an object, an array and undefined), so a Farm that does not override them crashes on those three routes. The model covers these crashes only as a `RejectedNullish` outcome, which also ends in a crash with nothing written.
- A crash is a throw inside the `async` request listener (Farm.js:38). It rejects the listener's promise, and nothing handles that rejection: no response is written, and under Node's default unhandled-rejection mode (fatal since Node 15) the rejection ends the whole server process. The model treats a crash as the end of that one request only: `FarmServer.Farm.HandleRequest` keeps serving afterwards, which assumes unhandled rejections are not fatal. With the default backend stubs this matters on every `/call_shepard`, `/shepard/<id>` and `/behbble/<a>/<b>` request.
- Concurrent requests are not modelled. With concurrent `/status` calls the last writer wins; the model handles one request at a time.
- Numbers are integers: NaN, fractions, -0 and the exponent notation of large numbers are not modelled. Strings are sequences of Unicode scalar values, not UTF-16 code units, so `slice` on astral characters may differ.
- `JsValues.JsString`: an object is always spelled "[object Object]"; an object body whose own keys override `toString` or `valueOf` is not modelled.
- `JsValues.Field`: only keys that no built-in prototype defines are read (`query`, `isChoice`, `err`, `code`, `choices`, `id`, `name`, `description`), so inherited properties such as `length` are not modelled.
- `FarmServer.Farm.IsAtCapacity`: a capacity that is a string, an array or an object counts as below capacity. JavaScript would convert it with ToNumber, so for example "2" would count as at capacity. `Dispatcher.AtLeastOne` is exact for numbers, booleans, null and undefined.
- `FarmServer.Settings`: `maxQueryLength` is an integer or absent; a non-numeric setting, which `slice` would coerce, is not modelled.
