# Ollama reverse proxy: model selection, provisioning and request shaping

This project models the decision logic of a small reverse proxy. The proxy sits between
OpenAI-style clients and an Ollama backend. For every request under `/v1/` it:

- picks the model to use: a `?model=` query value, normalised, or the configured default;
- optionally makes sure the backend holds that model, using a time-bounded cache of the
  backend's model list and pulling the model when it is missing;
- rewrites the request: it strips connection headers, removes the `model` query key and puts
  the model into a JSON body;
- relays the answer: as a streaming response for server-sent events, otherwise as one body.

`/v1/models` answers with a one-entry fallback list when the backend has none of its own.

The HTTP calls are inputs to the model:

- a listing reply, which is a status plus a decoded JSON body or a parse failure;
- a pull reply;
- the backend's response to the forwarded request.

The clock is an integer `now` passed in by the caller.

Modules, in dependency order:

- `Wrappers`: `Option` and `Result`.
- `PyText`: Python's `str.strip()` (the full `str.isspace` set) and `split("/", 1)[0]`, with
  the lemmas that pin them down.
- `JsonValue`: decoded JSON values, Python truthiness and hashability, and `dict.get`.
- `Http`: configuration, backend replies, `raise_for_status`, header lookup and the
  case-insensitive content-type tests.
- `ModelName`: `_normalize_model` and `_pick_model`.
- `ModelInjection`: `_apply_model`. A class `JsonDict` is the dict that is updated in place,
  and `WithModel` gives its specification.
- `Provisioning`: the listing loop `_fetch_local_models`, and the class `ModelCache` for the
  two module globals `_models_cache` / `_models_cache_ts`. Its methods `HasModel` and
  `PullModel` keep a ghost log of the requests sent to the backend. The module also holds
  `_ensure_model`.
- `Proxy`: the request rewrite and response relay of `proxy_v1`, the whole handler, and the
  `/v1/models` fallback.

Points where the code behaves in a way a reader might not expect, as the model states them:

- A value with a leading `/` (`"/chat"`) normalises to `""` even though it is not blank.
  Emptiness depends on the first `/`-segment (`NormalizeEmptyIff`,
  `NormalizeLeadingSlashIsEmpty`).
- A successful pull resets the timestamp to `0`. This forces the next check to refresh only
  when `now > TTL`; at an earlier time the old set is still used (`PullForcesRefresh`).
- Suppose the request has a JSON content type and a non-empty body, and the body parses to
  JSON `null`. Python then holds `None` as the payload after `body_bytes` was already
  cleared, so an empty raw body is forwarded (`ForwardedBody`).
- The event-stream branch does not pass the backend's stream through live. The upstream
  request is sent without `stream=True`, so httpx has already read the whole body, with its
  content-encoding decoded, before the content type is tested. The streaming response then
  replays that stored body, in practice as a single chunk, after the backend has finished
  (`Relay`, where `chunks` stands for what `aiter_bytes()` yields from the stored body).
- `/v1/models` falls back only when the backend answers with a status other than exactly
  200. If the backend cannot be reached, or a 200 body is not JSON, the call fails.

## Model

| member | source | states |
|---|---|---|
| `PyText.Trim` | proxy/app.py:29 | `strip()` leaves no whitespace at either end and never lengthens the string |
| `PyText.TrimOfPadded` | proxy/app.py:29 | `strip()` of whitespace + core + whitespace is exactly the core, so the trimmed result is unique |
| `PyText.TrimBounds` | proxy/app.py:29 | `strip()` returns a contiguous slice and removes only whitespace on either side of it |
| `PyText.TrimEmptyIff` | proxy/app.py:29-31 | `strip()` is empty exactly on all-whitespace input |
| `PyText.SlashIndex` | proxy/app.py:33-34 | the index of the first `/`: no `/` before it, and a `/` at it when it is inside the string |
| `PyText.FirstSegment` | proxy/app.py:34 | `split("/", 1)[0]` holds no `/` and is the whole string or the prefix ending just before a `/` |
| `ModelName.Normalize` | proxy/app.py:23-35 | the normalised name never contains `/`, has no surrounding whitespace, and is no longer than the input |
| `ModelName.NormalizeIsTrimmedFirstSegment` | proxy/app.py:29-35 | normalising equals stripping the raw value's first `/`-segment (an independent reference definition) |
| `ModelName.NormalizeIdempotent` | proxy/app.py:23-35 | normalising twice equals normalising once |
| `ModelName.NormalizeEmptyIff` | proxy/app.py:29-35 | the result is `""` exactly when only whitespace precedes the first `/` |
| `ModelName.NormalizeDropsAppendedPath` | proxy/app.py:32-34 | a clean model name with any path glued on after `/` normalises back to the name |
| `ModelName.NormalizeDeepseekExample` | proxy/app.py:26 | `deepseek-r1:latest/chat/completions` normalises to `deepseek-r1:latest` |
| `ModelName.NormalizeLeadingSlashIsEmpty` | proxy/app.py:29-34 | a non-blank value (`/chat`) can normalise to `""` |
| `ModelName.PickModel` | proxy/app.py:38-46 | a present `model` query value that normalises to a non-empty name wins; otherwise the default; never empty when the default is not |
| `ModelName.PickModelIgnoresDefault` | proxy/app.py:44-46 | with a usable `?model=`, the choice does not depend on the default |
| `ModelName.PickModelIsNormalized` | proxy/app.py:44-46 | the selected model is a fixed point of normalisation when the default is one |
| `ModelInjection.WithModel` | proxy/app.py:56-59 | the keys are the old keys plus `model`; other keys keep their values; `force` overwrites `model`; otherwise an existing `model` is kept and a missing one is set |
| `ModelInjection.WithModelIdempotent` | proxy/app.py:56-59 | putting the model in twice changes nothing more |
| `ModelInjection.UnforcedKeepsClientModel` | proxy/app.py:58-59 | `setdefault` leaves a dict that already names a model unchanged |
| `ModelInjection.ApplyModel` | proxy/app.py:49-60 | returns the same payload; a dict's entries become `WithModel` of the old entries, and nothing else is touched |
| `Http.StatusCheck` | proxy/app.py:93 | `raise_for_status` passes exactly the 2xx replies; otherwise it fails with the status, or as unreachable |
| `Http.Lower` | proxy/app.py:159 | `lower()` keeps the length and lower-cases each ASCII letter in place |
| `Http.LowerIdempotent` | proxy/app.py:183 | lower-casing twice is lower-casing once |
| `Provisioning.LocalModels` | proxy/app.py:63-73 | a non-2xx listing fails with its status; a result holds only non-empty names, and only from a 2xx JSON reply |
| `Provisioning.ListedNamesExactly` | proxy/app.py:65-73 | for any 2xx reply whose object's `models` is a list of readable entries (other keys allowed), a name is in the set exactly when some entry's `name` is that non-empty string |
| `Provisioning.FetchLocalModels` | proxy/app.py:63-73 | the loop returns exactly `LocalModels` of the reply, errors included |
| `Provisioning.ModelCache.constructor` | proxy/app.py:16-18 | the cache starts empty at timestamp 0 with the given TTL |
| `Provisioning.ModelCache.HasModel` | proxy/app.py:76-82 | refetches iff `now - ts > TTL`, then the set is replaced and `ts == now`; a failed fetch or a fresh cache leaves both unchanged; the answer is membership in the (possibly refreshed) set, so the empty name is never reported present |
| `Provisioning.ModelCache.PullModel` | proxy/app.py:85-96 | one pull request; success sets `ts` to 0; failure leaves `ts`; the set is never touched |
| `Provisioning.ModelCache.EnsureState` | proxy/app.py:76-104 | the log, set and stamp after `_ensure_model`: unchanged without auto-pull; the old log extended by nothing but at most one listing, present iff the cache was stale, and at most one pull of this model, present iff the model was absent; the set is the fetched listing after a successful refresh and the old set otherwise, and never contains `""` when the old one did not; the stamp is 0 after a successful pull, otherwise `now` after a successful refresh, otherwise unchanged |
| `Provisioning.EnsureModel` | proxy/app.py:99-104 | the result is `EnsureOutcome` and the new log, set and stamp are exactly `EnsureState` of the old state; with auto-pull off nothing changes |
| `Provisioning.PullForcesRefresh` | proxy/app.py:76-96 | after a successful pull, the next check at a time past the TTL refetches the listing |
| `Provisioning.RefreshIsReused` | proxy/app.py:76-82 | a second check within the TTL of a refresh sends no request and answers from the refreshed set |
| `Proxy.ForwardedBody` | proxy/app.py:154-169 | JSON is sent iff the content type mentions `application/json`, the body is non-empty and parses to a non-null value; a dict gets `WithModel` with `force` iff the query has a `model` key; a JSON-typed body parsing to `null` goes out as an empty raw body; otherwise the original bytes |
| `Proxy.BuildOutbound` | proxy/app.py:144-179 | headers minus `content-length`, `transfer-encoding` and `host`; params minus `model`; the same method; URL under `/v1/`; body as `ForwardedBody` |
| `Proxy.Relay` | proxy/app.py:181-194 | the status is kept; headers lose only `content-encoding`; the stored chunks are replayed as a stream iff the content type mentions `text/event-stream`, otherwise their concatenation is sent |
| `Proxy.RelayKeepsBytes` | proxy/app.py:184-194 | streamed or buffered, the client receives exactly the backend's bytes in order |
| `Proxy.ProxyV1` | proxy/app.py:133-194 | the cache's log, set and stamp become `EnsureState` for the picked model; a provisioning failure fails the request before forwarding; otherwise the forwarded request and the relayed response are as above for the picked model |
| `Proxy.QueryModelOverridesBody` | proxy/app.py:163-165 | with `?model=` present, a JSON object body carries the picked model whatever it named |
| `Proxy.EmptyQueryModelForcesDefault` | proxy/app.py:44-46 | `?model=` present but empty forces the default model into the body |
| `Proxy.BodyModelKeptWithoutQuery` | proxy/app.py:164-165 | without `?model=`, a model named in the body is forwarded unchanged |
| `Proxy.UnparsableBodyForwardedRaw` | proxy/app.py:159-169 | a JSON-typed body that fails to parse goes out as the original bytes, with `model` still removed from the query |
| `Proxy.FallbackListing` | proxy/app.py:127-130 | the fallback is exactly `{"object": "list", "data": [{"id": default, "object": "model", "owned_by": "ollama"}]}`, with no other top-level key |
| `Proxy.ModelsListing` | proxy/app.py:118-130 | a 200 reply is relayed; any other status gives the fallback; unreachable or non-JSON 200 fails |

## Left out

- HTTP transport (the httpx client calls, timeouts, connection handling): each reply is an input value. A raised exception becomes an `Err` value, and the 500 response FastAPI then sends is not modelled.
- FastAPI routing and the liveness probe on `GET /v1/chat/completions`: these are framework glue and a constant dict.
- Reading the configuration from the environment, including the `AUTO_PULL` truthy-string test: the settings are parameters (`Config`, and the TTL given to the `ModelCache` constructor).
- `time.time()` floats: timestamps are integers.
- JSON parsing and serialisation: the parse result is an input (`Inbound.decoded`, `HttpReply.body`). Non-integer numbers are not distinguished.
- Multi-valued headers and query keys: headers and query parameters are maps with lower-case header names, as `dict(...)` sees them.
- The async generator that replays the stored body: the replayed stream is the same chunk sequence. Client disconnects are not modelled.
- Concurrency between requests on the shared cache: each method runs as one atomic step.
- Provisioning.AddsName: a truthy non-string `name` (a number or `true`) would enter the Python set. It is left out of the cached set because no model name, which is a string, can equal it.
- Http.Lower: it lower-cases ASCII letters only. Request header values are Latin-1, where lower-casing maps no other character onto an ASCII letter, so the `application/json` test comes out the same. Response header values may be UTF-8, where `lower()` also maps U+212A to `k` and U+0130 to `i` plus a combining dot. `text/event-stream` contains neither `k` nor `i`, so that test comes out the same too.
- The request headers httpx adds for a `json=` body (its own content type and length) are not modelled.
