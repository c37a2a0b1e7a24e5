/**
 The cached REST call of restframeworkclient/models.py (`_rest_call`,
 `_check_params_for_none_values`, and the status check applied to every
 response). The HTTP transport itself is an oracle `server` that answers
 each call; the per-request cache is an optional map owned by the client
 object (None when no request is active).
 */
module Transport {
  import opened Base
  import opened Utils
  import opened Resources

  datatype Method = GET | POST | PATCH | DELETE

  /**
   A decoded response body: a listing page (the `count`, the `results` of
   the first page, and the result pages its `next` links lead to, in order),
   a single record, or an empty body.
   */
  datatype Body =
    | Listing(count: int, results: seq<Record>, more: seq<seq<Record>>)
    | Single(record: Record)
    | NoContent

  /** One transport call: URL, method, query parameters and payload, when given. */
  datatype Call = Call(url: Url, verb: Method, params: Option<Record>, data: Option<Record>)

  datatype Response = Response(status: int, body: Body)

  /** `_check_params_for_none_values`: some query parameter is None. */
  predicate HasNoneParam(params: Option<Record>) {
    params.Some? && exists k :: k in params.value && params.value[k] == VNone
  }

  /** The request-cache key: the URL extended by the query parameters. */
  function CacheKey(c: Call): (key: Url)
    ensures key.path == c.url.path
    ensures key.query == MergeParams(c.url.query, c.params.GetOr(map[]))
    ensures c.params.None? ==> key.query == c.url.query
  {
    ExtendQuery(c.url, c.params.GetOr(map[]))
  }

  /** A response as the caller sees it: the body on 2xx, otherwise the mapped error. */
  function Decode(model: string, r: Response): (res: Result<Body>)
    ensures res.Ok? <==> 200 <= r.status < 300
    ensures res.Ok? ==> res.value == r.body
    ensures res.Err? ==> Some(res.error) == StatusError(r.status, model)
  {
    var e := StatusError(r.status, model);
    if e.None? then Ok(r.body) else Err(e.value)
  }

  /** The request cache after a call that reached the cache logic and produced `res`. */
  function NextCache(cache: Option<map<Url, Body>>, c: Call, res: Result<Body>): Option<map<Url, Body>> {
    if cache.None? then None
    else if c.verb != GET then Some(map[])
    else if res.Ok? then Some(cache.value[CacheKey(c) := res.value])
    else cache
  }

  class Client {
    /** The remote API: the response it gives to each call. */
    const server: Call -> Response
    /** Every call that reached the transport, in order. */
    var log: seq<Call>
    /** `request._restframeworkclient_cache`, when a request is active. */
    var requestCache: Option<map<Url, Body>>

    constructor (server: Call -> Response, inRequest: bool)
      ensures this.server == server && log == []
      ensures requestCache == if inRequest then Some(map[]) else None
    {
      this.server := server;
      log := [];
      requestCache := if inRequest then Some(map[]) else None;
    }

    /** The call is a GET whose answer the active request has cached. */
    predicate Hits(c: Call)
      reads this
    {
      requestCache.Some? && c.verb == GET && CacheKey(c) in requestCache.value
    }

    /** What `_rest_call` answers for `c`, made on behalf of model `model`. */
    function Answer(model: string, c: Call): Result<Body>
      reads this
    {
      if HasNoneParam(c.params) then Err(NoneValueInParams)
      else if Hits(c) then Ok(requestCache.value[CacheKey(c)])
      else Decode(model, server(c))
    }

    /** The call log once `c` has been made: it grows only when the transport is reached. */
    function LogAfter(c: Call): seq<Call>
      reads this
    {
      if HasNoneParam(c.params) || Hits(c) then log else log + [c]
    }

    /** The request cache once `c` has been made on behalf of `model`. */
    function CacheAfter(model: string, c: Call): Option<map<Url, Body>>
      reads this
    {
      if HasNoneParam(c.params) || Hits(c) then requestCache
      else NextCache(requestCache, c, Answer(model, c))
    }

    /**
     `_rest_call`: rejects None parameters before anything else; a GET hit
     in the request cache is answered without the transport; any other
     method first empties the cache; a successful GET is stored.
     */
    method RestCall(model: string, c: Call) returns (r: Result<Body>)
      modifies this
      ensures r == old(Answer(model, c))
      ensures log == old(LogAfter(c))
      ensures requestCache == old(CacheAfter(model, c))
    {
      if HasNoneParam(c.params) {
        return Err(NoneValueInParams);
      }
      var key := CacheKey(c);
      if requestCache.Some? {
        if c.verb == GET {
          if key in requestCache.value {
            return Ok(requestCache.value[key]);
          }
        } else {
          requestCache := Some(map[]);
        }
      }
      log := log + [c];
      r := Decode(model, server(c));
      if requestCache.Some? && c.verb == GET && r.Ok? {
        requestCache := Some(requestCache.value[key := r.value]);
      }
    }
  }
}
