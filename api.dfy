/**
 * The request handlers of the Python API service and the record store they
 * share (`data_store`), as a class whose one field is the insertion-ordered
 * list of records. The clock, the fresh UUID, the client address and the
 * process environment are parameters.
 */
module Api {
  import opened Wrappers
  import opened Json
  import opened Decimal
  import opened Records

  /** What `request.get_json()` makes of the body of a JSON request: a decoded
      value, or a decoding failure (an empty body is one) together with the
      text of the exception Flask raises for it. */
  datatype Body = Parsed(value: Json) | Undecodable(reason: string)

  /** The parts of a POST request the handler looks at: `request.is_json`,
      the body, and `request.remote_addr`. */
  datatype Request = Request(isJson: bool, body: Body, remoteAddr: Option<string>)

  /** The JSON envelopes the handlers answer with. */
  datatype Envelope =
    | Failure(error: string)
    | InternalFailure(error: string, details: string)
    | Created(message: string, item: Record, totalItems: nat)
    | Found(item: Record, timestamp: string)
    | Listing(data: seq<Record>, count: nat, timestamp: string)
    | Cleared(message: string, timestamp: string)
    | StatusReport(service: string, status: string, version: string, environment: string,
                   totalItems: nat, uptime: string, lastActivity: string)

  datatype Response = Response(status: int, body: Envelope)

  const NotJsonError := "Content-Type must be application/json"
  const EmptyBodyError := "Request body cannot be empty"
  const InternalError := "Internal server error"
  const CreatedMessage := "Data created successfully"
  const ServiceName := "python-api"
  const ServiceVersion := "1.0.0"
  const DefaultEnvironment := "development"
  const ClearedPrefix := "Cleared "
  const ClearedSuffix := " items"

  function NotFoundMessage(itemId: string): string {
    "Item with ID " + itemId + " not found"
  }

  /** The DELETE message, the only place the response reports the count. */
  function ClearedMessage(count: nat): string {
    ClearedPrefix + NatToDecimal(count) + ClearedSuffix
  }

  /** Reads the count back out of a DELETE message, if it is one. */
  function ClearedCount(msg: string): Option<nat> {
    var lo, hi := |ClearedPrefix|, |msg| - |ClearedSuffix|;
    if lo < hi && msg[..lo] == ClearedPrefix && msg[hi..] == ClearedSuffix && IsDigits(msg[lo..hi])
    then Some(DecimalToNat(msg[lo..hi]))
    else None
  }

  /** The count a DELETE reports can be read back from its message. */
  lemma ClearedMessageReportsCount(n: nat)
    ensures ClearedCount(ClearedMessage(n)) == Some(n)
  {
    var m, d := ClearedMessage(n), NatToDecimal(n);
    assert m[..|ClearedPrefix|] == ClearedPrefix;
    assert m[|m| - |ClearedSuffix|..] == ClearedSuffix;
    assert m[|ClearedPrefix|..|m| - |ClearedSuffix|] == d;
    DecimalRoundTrip(n);
  }

  /** `os.environ.get('ENVIRONMENT', 'development')`. */
  function EnvironmentName(env: map<string, string>): string
  {
    if "ENVIRONMENT" in env then env["ENVIRONMENT"] else DefaultEnvironment
  }

  /** A POST passes both validation checks: it is JSON, and its body decodes
      to a value Python treats as true. */
  predicate Accepted(req: Request) {
    req.isJson && req.body.Parsed? && Truthy(req.body.value)
  }

  /** The process-wide record store and the handlers that use it. */
  class Store {
    /** `data_store`, in insertion order. */
    var items: seq<Record>

    /** The store starts out empty. */
    constructor ()
      ensures items == []
    {
      items := [];
    }

    /** POST /api/data. `newId` stands for `str(uuid.uuid4())` and `now` for
        the creation timestamp. Every rejection leaves the store as it was;
        an accepted request appends exactly one record at the end. */
    method CreateData(req: Request, newId: string, now: string) returns (resp: Response)
      modifies this
      ensures !req.isJson ==>
        resp == Response(400, Failure(NotJsonError)) && items == old(items)
      ensures req.isJson && req.body.Undecodable? ==>
        resp == Response(500, InternalFailure(InternalError, req.body.reason)) && items == old(items)
      ensures req.isJson && req.body.Parsed? && !Truthy(req.body.value) ==>
        resp == Response(400, Failure(EmptyBodyError)) && items == old(items)
      ensures Accepted(req) ==>
        var item := Record(newId, req.body.value, now, req.remoteAddr);
        && items == old(items) + [item]
        && resp == Response(201, Created(CreatedMessage, item, |old(items)| + 1))
      ensures resp.status == 201 <==> Accepted(req)
      ensures old(UniqueIds(items)) && !old(HasId(items, newId)) ==> UniqueIds(items)
    {
      if !req.isJson {
        return Response(400, Failure(NotJsonError));
      }
      if req.body.Undecodable? {
        // request.get_json() raises; the handler's `except Exception` answers
        return Response(500, InternalFailure(InternalError, req.body.reason));
      }
      var requestData := req.body.value;
      if !Truthy(requestData) {
        return Response(400, Failure(EmptyBodyError));
      }
      var newItem := Record(newId, requestData, now, req.remoteAddr);
      if UniqueIds(items) && !HasId(items, newId) {
        AppendFreshKeepsUnique(items, newItem);
      }
      items := items + [newItem];
      resp := Response(201, Created(CreatedMessage, newItem, |items|));
    }

    /** GET /api/data: every record, in insertion order, with their number. */
    function GetData(now: string): (resp: Response)
      reads this
      ensures resp.status == 200 && resp.body.Listing?
      ensures resp.body.data == items && resp.body.count == |resp.body.data|
    {
      Response(200, Listing(items, |items|, now))
    }

    /** GET /api/data/<item_id>: 200 with the first record carrying the id,
        404 when no record does. */
    function GetDataById(itemId: string, now: string): (resp: Response)
      reads this
      ensures resp.status == 200 <==> HasId(items, itemId)
      ensures resp.status == 200 ==>
        exists i :: 0 <= i < |items| && resp.body == Found(items[i], now) && items[i].id == itemId &&
                    forall j :: 0 <= j < i ==> items[j].id != itemId
      ensures resp.status != 200 ==> resp == Response(404, Failure(NotFoundMessage(itemId)))
    {
      match FindById(items, itemId)
      case None => Response(404, Failure(NotFoundMessage(itemId)))
      case Some(item) => Response(200, Found(item, now))
    }

    /** GET /api/status: fixed service metadata and `total_items`, the number
        of stored records. */
    function GetStatus(env: map<string, string>, now: string): (resp: Response)
      reads this
      ensures resp.status == 200 && resp.body.StatusReport?
      ensures resp.body.totalItems == |items|
      ensures resp.body.service == ServiceName && resp.body.status == "running"
      ensures resp.body.version == ServiceVersion && resp.body.uptime == "running"
      ensures resp.body.environment == EnvironmentName(env) && resp.body.lastActivity == now
    {
      Response(200, StatusReport(ServiceName, "running", ServiceVersion, EnvironmentName(env),
                                 |items|, "running", now))
    }

    /** DELETE /api/data: empties the store and reports how many records it
        held. */
    method ClearData(now: string) returns (resp: Response)
      modifies this
      ensures items == []
      ensures resp == Response(200, Cleared(ClearedMessage(|old(items)|), now))
      ensures ClearedCount(resp.body.message) == Some(|old(items)|)
    {
      var itemsCount := |items|;
      items := [];
      ClearedMessageReportsCount(itemsCount);
      resp := Response(200, Cleared(ClearedMessage(itemsCount), now));
    }
  }

  /** A successful POST followed by a GET of the new id returns the record
      just created, carrying the posted payload. */
  method PostThenGet(store: Store, req: Request, newId: string, now: string, later: string)
    returns (created: Response, fetched: Response)
    requires Accepted(req) && !HasId(store.items, newId)
    modifies store
    ensures created.status == 201 && created.body.Created? && fetched.status == 200
    ensures fetched.body.Found? && fetched.body.item == created.body.item
    ensures fetched.body.item.id == newId && fetched.body.item.data == req.body.value
  {
    ghost var before := store.items;
    created := store.CreateData(req, newId, now);
    FindAppendedFresh(before, created.body.item);
    fetched := store.GetDataById(newId, later);
  }

  /** A DELETE followed by GET /api/data lists nothing, whatever was stored. */
  method ClearThenList(store: Store, now: string, later: string)
    returns (cleared: Response, listed: Response)
    modifies store
    ensures cleared.status == 200 && listed.status == 200 && listed.body.Listing?
    ensures listed.body.data == [] && listed.body.count == 0
  {
    cleared := store.ClearData(now);
    listed := store.GetData(later);
  }
}
