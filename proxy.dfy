/**
 * The route handlers: the generic `/v1/{path}` proxy (request rewrite, forwarding and response
 * relay) and the `/v1/models` listing with its fallback.
 */
module Proxy {
  import opened Wrappers
  import opened JsonValue
  import opened Http
  import opened ModelName
  import opened ModelInjection
  import opened Provisioning

  /**
   * An inbound request: method, headers, query parameters, raw body, and what parsing the
   * body as JSON gives (`None` when the parser raises).
   */
  datatype Inbound = Inbound(verb: string, headers: Headers, query: map<string, string>, body: seq<byte>, decoded: Option<Json>)

  /** The body sent upstream: the raw bytes, or a JSON value that httpx serialises. */
  datatype Body = RawBody(bytes: seq<byte>) | JsonBody(value: Json)

  datatype Outbound = Outbound(verb: string, url: string, params: map<string, string>, headers: Headers, body: Body)

  /**
   * The backend's answer. The request is sent without streaming, so httpx has read the whole
   * body, content-encoding already decoded, before the proxy looks at it; `chunks` is what
   * `aiter_bytes()` then yields from that stored body (in practice one chunk, or none).
   */
  datatype UpstreamResponse = UpstreamResponse(status: int, headers: Headers, chunks: seq<seq<byte>>)

  /**
   * What the client receives: a streaming response that replays the chunks of the already-read
   * body, or the whole body at once.
   */
  datatype ClientResponse =
    | Streamed(status: int, headers: Headers, chunks: seq<seq<byte>>)
    | Buffered(status: int, headers: Headers, content: seq<byte>)

  datatype Exchange = Exchange(sent: Outbound, returned: ClientResponse)

  /** Connection-specific headers the transport recomputes; they are never forwarded. */
  const StrippedHeaders: set<string> := {"content-length", "transfer-encoding", "host"}

  /** The body is parsed only for a JSON content type (any letter case) and a non-empty body. */
  predicate JsonCandidate(req: Inbound) {
    ContentTypeMentions(req.headers, "application/json") && |req.body| > 0
  }

  /**
   * The body that leaves the proxy. A parsed dict gets the model put in, forced exactly when
   * the query had a `model` key; a parse failure keeps the raw bytes. A body that parses to
   * JSON `null` is Python's `None`: the raw bytes were already cleared, so an empty body goes out.
   */
  function ForwardedBody(req: Inbound, model: string): (b: Body)
    ensures b.JsonBody? <==> JsonCandidate(req) && req.decoded.Some? && req.decoded.value != JNull
    ensures b.RawBody? ==> b.bytes == req.body || (req.decoded == Some(JNull) && b.bytes == [])
    ensures !JsonCandidate(req) || req.decoded.None? ==> b == RawBody(req.body)
    ensures JsonCandidate(req) && req.decoded == Some(JNull) ==> b == RawBody([])
    ensures b.JsonBody? && req.decoded.value.JObj? ==>
      b.value.JObj? && b.value.fields == WithModel(req.decoded.value.fields, model, "model" in req.query)
    ensures b.JsonBody? && !req.decoded.value.JObj? ==> b.value == req.decoded.value
  {
    if JsonCandidate(req) && req.decoded.Some? then
      match req.decoded.value
      case JNull => RawBody([])
      case JObj(fields) => JsonBody(JObj(WithModel(fields, model, "model" in req.query)))
      case other => JsonBody(other)
    else RawBody(req.body)
  }

  /** `out` is the request `proxy_v1` sends upstream for `req` once `model` is chosen. */
  predicate ForwardsRequest(cfg: Config, path: string, req: Inbound, model: string, out: Outbound) {
    && out.verb == req.verb
    && out.url == cfg.upstreamBase + "/v1/" + path
    && out.headers == req.headers - StrippedHeaders
    && out.params == req.query - {"model"}
    && out.body == ForwardedBody(req, model)
  }

  /**
   * Building the upstream request in `proxy_v1`: copy and prune the header and query dicts,
   * then try the JSON path, which replaces the raw bytes only when parsing succeeds.
   */
  method BuildOutbound(cfg: Config, path: string, req: Inbound, model: string) returns (out: Outbound)
    ensures ForwardsRequest(cfg, path, req, model, out)
  {
    var url := cfg.upstreamBase + "/v1/" + path;
    var headers := req.headers;
    headers := headers - {"content-length"};
    headers := headers - {"transfer-encoding"};
    headers := headers - {"host"};
    var params := req.query;
    params := params - {"model"};
    var bodyBytes := req.body;
    var jsonPayload: Option<Json> := None;
    var contentType := HeaderOr(req.headers, "content-type");
    if Contains(Lower(contentType), "application/json") && |bodyBytes| > 0 {
      match req.decoded {
        case None =>
          jsonPayload := None;
        case Some(v) =>
          var force := "model" in req.query;
          var payload := OtherPayload(v);
          if v.JObj? {
            var dict := new JsonDict(v.fields);
            payload := DictPayload(dict);
          }
          payload := ApplyModel(payload, model, force);
          jsonPayload := match payload
            case DictPayload(d) => Some(JObj(d.entries))
            case OtherPayload(JNull) => None
            case OtherPayload(other) => Some(other);
          bodyBytes := [];
      }
    }
    var body := if jsonPayload.None? then RawBody(bodyBytes) else JsonBody(jsonPayload.value);
    out := Outbound(req.verb, url, params, headers, body);
  }

  function Concat(chunks: seq<seq<byte>>): seq<byte> {
    if chunks == [] then [] else chunks[0] + Concat(chunks[1..])
  }

  /**
   * `out` relays `resp`: same status, headers without `content-encoding`, the stored chunks
   * replayed as a stream exactly when the content type is an event stream, otherwise sent as
   * one body.
   */
  predicate RelaysResponse(resp: UpstreamResponse, out: ClientResponse) {
    && out.status == resp.status
    && out.headers == resp.headers - {"content-encoding"}
    && (out.Streamed? <==> ContentTypeMentions(resp.headers, "text/event-stream"))
    && (out.Streamed? ==> out.chunks == resp.chunks)
    && (out.Buffered? ==> out.content == Concat(resp.chunks))
  }

  /** The response half of `proxy_v1`. */
  method Relay(resp: UpstreamResponse) returns (out: ClientResponse)
    ensures RelaysResponse(resp, out)
  {
    var ct := HeaderOr(resp.headers, "content-type");
    if Contains(Lower(ct), "text/event-stream") {
      var respHeaders := resp.headers;
      respHeaders := respHeaders - {"content-encoding"};
      return Streamed(resp.status, respHeaders, resp.chunks);
    }
    var respHeaders := resp.headers;
    respHeaders := respHeaders - {"content-encoding"};
    return Buffered(resp.status, respHeaders, Concat(resp.chunks));
  }

  /** The bytes the client gets, in order, whichever way they are delivered. */
  function Delivered(out: ClientResponse): seq<byte> {
    match out
    case Streamed(_, _, chunks) => Concat(chunks)
    case Buffered(_, _, content) => content
  }

  /** Streaming or buffering, the client receives exactly the backend's bytes. */
  lemma RelayKeepsBytes(resp: UpstreamResponse, out: ClientResponse)
    requires RelaysResponse(resp, out)
    ensures Delivered(out) == Concat(resp.chunks)
  {
  }

  /**
   * `proxy_v1`: pick the model, make sure it is present (a failure there fails the request
   * before anything is forwarded), rewrite, forward, relay. `upstream` is the backend's
   * answer to the forwarded request, `None` when it cannot be reached.
   */
  method ProxyV1(cache: ModelCache, cfg: Config, path: string, req: Inbound, now: int,
                 listing: HttpReply, pull: HttpReply, upstream: Option<UpstreamResponse>)
    returns (r: Result<Exchange, ProxyError>)
    requires cache.Valid()
    modifies cache
    ensures cache.Valid()
    ensures !cfg.autoPull ==> unchanged(cache)
    ensures (cache.calls, cache.names, cache.stamp)
      == old(cache.EnsureState(cfg.autoPull, PickModel(req.query, cfg.defaultModel), now, listing, pull))
    ensures var model := PickModel(req.query, cfg.defaultModel);
      var ensured := old(cache.EnsureOutcome(cfg.autoPull, model, now, listing, pull));
      && (ensured.Err? ==> r == Err(ensured.error))
      && (ensured.Ok? && upstream.None? ==> r == Err(UpstreamUnreachable))
      && (ensured.Ok? && upstream.Some? ==>
            r.Ok? && ForwardsRequest(cfg, path, req, model, r.value.sent)
            && RelaysResponse(upstream.value, r.value.returned))
  {
    var model := PickModel(req.query, cfg.defaultModel);
    var ensured := EnsureModel(cache, cfg.autoPull, model, now, listing, pull);
    if ensured.Err? {
      return Err(ensured.error);
    }
    var out := BuildOutbound(cfg, path, req, model);
    if upstream.None? {
      return Err(UpstreamUnreachable);
    }
    var returned := Relay(upstream.value);
    return Ok(Exchange(out, returned));
  }

  /** An explicit `?model=` overrides the model a JSON body names. */
  lemma QueryModelOverridesBody(cfg: Config, path: string, req: Inbound, out: Outbound)
    requires ForwardsRequest(cfg, path, req, PickModel(req.query, cfg.defaultModel), out)
    requires JsonCandidate(req) && req.decoded.Some? && req.decoded.value.JObj?
    requires "model" in req.query
    ensures out.body.JsonBody? && out.body.value.JObj?
    ensures out.body.value.fields["model"] == JStr(PickModel(req.query, cfg.defaultModel))
  {
  }

  /**
   * `?model=` present but empty still forces the override, with the default model: a body
   * naming its own model is sent with the default instead.
   */
  lemma EmptyQueryModelForcesDefault(cfg: Config, path: string, req: Inbound, out: Outbound)
    requires ForwardsRequest(cfg, path, req, PickModel(req.query, cfg.defaultModel), out)
    requires JsonCandidate(req) && req.decoded.Some? && req.decoded.value.JObj?
    requires "model" in req.query && req.query["model"] == ""
    ensures out.body.JsonBody? && out.body.value.fields["model"] == JStr(cfg.defaultModel)
  {
  }

  /** Without `?model=`, a model named in the JSON body is forwarded unchanged. */
  lemma BodyModelKeptWithoutQuery(cfg: Config, path: string, req: Inbound, model: string, out: Outbound)
    requires ForwardsRequest(cfg, path, req, model, out)
    requires JsonCandidate(req) && req.decoded.Some? && req.decoded.value.JObj?
    requires "model" !in req.query
    ensures out.body.JsonBody? && out.body.value == req.decoded.value.(fields := WithModel(req.decoded.value.fields, model, false))
    ensures "model" in req.decoded.value.fields ==> out.body.value == req.decoded.value
  {
  }

  /**
   * A body declared as JSON that does not parse goes out as the original bytes, with no model
   * put in, even when `?model=` was given and has been removed from the query.
   */
  lemma UnparsableBodyForwardedRaw(cfg: Config, path: string, req: Inbound, model: string, out: Outbound)
    requires ForwardsRequest(cfg, path, req, model, out)
    requires req.decoded.None?
    ensures out.body == RawBody(req.body) && "model" !in out.params
  {
  }

  /** The synthetic single-entry list `/v1/models` answers with when the backend will not. */
  function FallbackListing(defaultModel: string): (r: Json)
    ensures r.JObj? && r.fields.Keys == {"object", "data"}
    ensures Get(r.fields, "object") == JStr("list")
    ensures Get(r.fields, "data") == JArr([JObj(map["id" := JStr(defaultModel), "object" := JStr("model"), "owned_by" := JStr("ollama")])])
  {
    JObj(map[
      "object" := JStr("list"),
      "data" := JArr([JObj(map["id" := JStr(defaultModel), "object" := JStr("model"), "owned_by" := JStr("ollama")])])
    ])
  }

  /**
   * `models`: the backend's own `/v1/models` answer when its status is exactly 200,
   * otherwise the fallback. An unreachable backend or a 200 that is not JSON fails.
   */
  function ModelsListing(defaultModel: string, reply: HttpReply): (r: Result<Json, ProxyError>)
    ensures reply.Unreachable? ==> r == Err(UpstreamUnreachable)
    ensures reply.Answered? && reply.status == 200 && reply.body.Some? ==> r == Ok(reply.body.value)
    ensures reply.Answered? && reply.status == 200 && reply.body.None? ==> r == Err(MalformedBody)
    ensures reply.Answered? && reply.status != 200 ==> r == Ok(FallbackListing(defaultModel))
  {
    match reply
    case Unreachable => Err(UpstreamUnreachable)
    case Answered(status, body) =>
      if status == 200 then (if body.Some? then Ok(body.value) else Err(MalformedBody))
      else Ok(FallbackListing(defaultModel))
  }
}
