/**
 * The Farm object: its configuration and the one piece of state the
 * dispatcher changes, the last status the backend reported.
 */
module FarmServer {
  import opened JsValues
  import opened Dispatcher

  /**
   * The constructor's settings that the dispatcher depends on: the initial
   * status (Undefined when not given) and the query length limit (None when
   * not given). The port and the TLS options configure the transport only.
   */
  datatype Settings = Settings(status: Value, maxQueryLength: Option<int>)

  /** `settings.maxQueryLength || 256`: a missing or zero setting falls back to 256. */
  function EffectiveMaxQueryLength(setting: Option<int>): (n: int)
    ensures n != 0
    ensures setting.Some? && setting.value != 0 ==> n == setting.value
    ensures setting.None? || setting.value == 0 ==> n == 256
  {
    match setting
    case Some(limit) => if limit != 0 then limit else 256
    case None => 256
  }

  class Farm {
    /** The status object the last `/status` request stored. */
    var lastStatus: map<string, Value>
    const maxQueryLength: int

    ghost predicate Valid()
      reads this
    {
      "capacity" in lastStatus && maxQueryLength != 0
    }

    constructor (settings: Settings)
      ensures Valid()
      ensures lastStatus == Overlay(StatusDefaults, settings.status)
      ensures maxQueryLength == EffectiveMaxQueryLength(settings.maxQueryLength)
    {
      lastStatus := Overlay(StatusDefaults, settings.status);
      maxQueryLength := EffectiveMaxQueryLength(settings.maxQueryLength);
    }

    /**
     * Whether the last status reported a capacity of at least one. The last
     * status always holds a capacity, so the test never reads a missing key.
     */
    function IsAtCapacity(): (r: bool)
      requires Valid()
      reads this
      ensures r <==> AtLeastOne(lastStatus["capacity"])
      ensures lastStatus["capacity"].Num? ==> (r <==> lastStatus["capacity"].n >= 1)
      ensures lastStatus["capacity"].Bool? ==> (r <==> lastStatus["capacity"].b)
      ensures Nullish(lastStatus["capacity"]) ==> !r
    {
      AtCapacity(lastStatus)
    }

    /**
     * Handles one request. Only a `/status` request whose backend call
     * resolves writes the last status, and it writes exactly the object it
     * sends back; every other request leaves the state alone.
     */
    method HandleRequest(req: Request, backend: Backend) returns (reply: Reply)
      requires Valid()
      modifies this
      ensures Valid()
      ensures reply == Dispatch(req, maxQueryLength, backend)
      ensures lastStatus == if reply.stored.Some? then reply.stored.value else old(lastStatus)
      ensures reply.stored.Some? ==> reply.response == Json(lastStatus)
    {
      reply := Dispatch(req, maxQueryLength, backend);
      if reply.stored.Some? {
        lastStatus := reply.stored.value;
      }
    }
  }

  /**
   * Two `/status` requests one after the other: the status the second one
   * reports is the one kept, whole, with nothing left over from the first,
   * whether or not the first call succeeded.
   */
  method StatusTwice(farm: Farm, first: Backend, second: Backend)
    requires farm.Valid()
    requires second(Status).Resolved?
    modifies farm
    ensures farm.Valid()
    ensures farm.lastStatus == Overlay(StatusDefaults, second(Status).value)
  {
    var request := Request("GET", "/status", Null);
    var _ := farm.HandleRequest(request, first);
    var _ := farm.HandleRequest(request, second);
  }
}
