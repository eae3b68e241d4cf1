/**
 * What the proxy sees of HTTP: configuration, replies from the backend, header maps and the
 * case-insensitive substring tests on content types.
 */
module Http {
  import opened Wrappers
  import opened JsonValue

  newtype byte = b: int | 0 <= b < 256

  /**
   * Process-wide settings read once at start-up: the backend's base URL (trailing `/` already
   * removed), the default model, and whether missing models are pulled automatically.
   */
  datatype Config = Config(upstreamBase: string, defaultModel: string, autoPull: bool)

  /**
   * The outcome of one request the proxy makes to the backend: no answer at all, or a status
   * code with the body decoded as JSON (`None` when the body is not valid JSON).
   */
  datatype HttpReply = Unreachable | Answered(status: int, body: Option<Json>)

  /** Why a step that talks to the backend failed. */
  datatype ProxyError =
    | UpstreamUnreachable
    | UpstreamStatus(code: int)
    | MalformedBody

  /** httpx's success range, the statuses `raise_for_status` lets through. */
  predicate IsSuccess(status: int) {
    200 <= status < 300
  }

  /** Sending a request and calling `raise_for_status()` on the reply. */
  function StatusCheck(reply: HttpReply): (r: Result<(), ProxyError>)
    ensures r.Ok? <==> reply.Answered? && IsSuccess(reply.status)
    ensures reply.Unreachable? ==> r == Err(UpstreamUnreachable)
    ensures reply.Answered? && !IsSuccess(reply.status) ==> r == Err(UpstreamStatus(reply.status))
  {
    match reply
    case Unreachable => Err(UpstreamUnreachable)
    case Answered(status, _) => if IsSuccess(status) then Ok(()) else Err(UpstreamStatus(status))
  }

  /** Header maps are keyed by lower-case names, as the server and httpx deliver them. */
  type Headers = map<string, string>

  /** `headers.get(name, "")`. */
  function HeaderOr(headers: Headers, name: string): string {
    if name in headers then headers[name] else ""
  }

  function LowerChar(c: char): (r: char)
    ensures 'A' <= c <= 'Z' ==> 'a' <= r <= 'z' && r as int == c as int + 32
    ensures !('A' <= c <= 'Z') ==> r == c
  {
    if 'A' <= c <= 'Z' then (c as int - 'A' as int + 'a' as int) as char else c
  }

  /**
   * `s.lower()` on a header value, for the ASCII letters only. Request header values are
   * Latin-1 text, where lower-casing maps no other character onto an ASCII letter. Response
   * header values may be UTF-8, where `lower()` also maps U+212A to `k` and U+0130 to `i`
   * followed by a combining dot; the only needle tested there, `text/event-stream`, holds
   * neither `k` nor `i`, so the containment test comes out the same.
   */
  function Lower(s: string): (r: string)
    ensures |r| == |s|
    ensures forall i :: 0 <= i < |s| ==> r[i] == LowerChar(s[i])
  {
    seq(|s|, i requires 0 <= i < |s| => LowerChar(s[i]))
  }

  predicate OccursAt(hay: string, needle: string, i: nat) {
    i + |needle| <= |hay| && hay[i..i + |needle|] == needle
  }

  /** Python's `needle in hay` on strings. */
  predicate Contains(hay: string, needle: string) {
    exists i: nat :: i <= |hay| && OccursAt(hay, needle, i)
  }

  /** `needle in headers.get("content-type", "").lower()`. */
  predicate ContentTypeMentions(headers: Headers, needle: string) {
    Contains(Lower(HeaderOr(headers, "content-type")), needle)
  }

  /** Lower-casing twice is lower-casing once: a value already in lower case is left as it is. */
  lemma LowerIdempotent(s: string)
    ensures Lower(Lower(s)) == Lower(s)
  {
  }
}
