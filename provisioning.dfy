/**
 * Model provisioning: reading the backend's list of local models (`GET /api/tags`), the
 * time-bounded cache of that list, pulling a missing model (`POST /api/pull`), and the
 * "ensure the model is present" decision made before every proxied request.
 */
module Provisioning {
  import opened Wrappers
  import opened JsonValue
  import opened Http

  /** A request the proxy sends to the backend on behalf of the cache. */
  datatype BackendCall = ListTags | Pull(model: string)

  /**
   * What `for m in data.get("models", [])` iterates over, or `None` when the loop cannot run:
   * `data` is not a dict, `models` is not iterable, or it is a non-empty string or dict (its
   * elements are then strings, which have no `.get`).
   */
  function ListingEntries(data: Json): Option<seq<Json>> {
    if !data.JObj? then None
    else
      match Get(data.fields, "models")
      case JNull => if "models" in data.fields then None else Some([])
      case JArr(items) => Some(items)
      case JStr(s) => if s == "" then Some([]) else None
      case JObj(fields) => if fields == map[] then Some([]) else None
      case _ => None
  }

  /**
   * An entry the loop gets past without an exception: a dict whose `name`, when truthy, can
   * be added to a set.
   */
  predicate Readable(entry: Json) {
    entry.JObj? && (Truthy(Get(entry.fields, "name")) ==> Hashable(Get(entry.fields, "name")))
  }

  /**
   * An entry whose name ends up in the set. A truthy name that is a number or `true` would be
   * added in Python too, but no model name (a string) ever equals it, so it is left out here.
   */
  predicate AddsName(entry: Json) {
    entry.JObj? && Get(entry.fields, "name").JStr? && Get(entry.fields, "name").s != ""
  }

  function NamesIn(entries: seq<Json>): (r: set<string>)
    ensures "" !in r
  {
    set i | 0 <= i < |entries| && AddsName(entries[i]) :: Get(entries[i].fields, "name").s
  }

  /**
   * What `_fetch_local_models` yields for a reply from `GET /api/tags`: the non-empty string
   * `name`s of the `models` entries, or the error the call raises.
   */
  function LocalModels(reply: HttpReply): (r: Result<set<string>, ProxyError>)
    ensures StatusCheck(reply).Err? ==> r == Err(StatusCheck(reply).error)
    ensures r.Ok? ==> reply.Answered? && IsSuccess(reply.status) && reply.body.Some?
    ensures r.Ok? ==> "" !in r.value
  {
    if StatusCheck(reply).Err? then Err(StatusCheck(reply).error)
    else if reply.body.None? then Err(MalformedBody)
    else
      match ListingEntries(reply.body.value)
      case None => Err(MalformedBody)
      case Some(entries) =>
        if forall i :: 0 <= i < |entries| ==> Readable(entries[i]) then Ok(NamesIn(entries))
        else Err(MalformedBody)
  }

  /**
   * A 2xx listing whose `models` is a list of readable entries yields exactly the non-empty
   * string names those entries carry, whatever other keys the object has.
   */
  lemma ListedNamesExactly(status: int, fields: map<string, Json>, entries: seq<Json>, name: string)
    requires IsSuccess(status) && Get(fields, "models") == JArr(entries)
    requires forall i :: 0 <= i < |entries| ==> Readable(entries[i])
    ensures var r := LocalModels(Answered(status, Some(JObj(fields))));
      r.Ok? && (name in r.value <==>
        name != "" && exists i :: 0 <= i < |entries| && entries[i].JObj? && Get(entries[i].fields, "name") == JStr(name))
  {
    if name in NamesIn(entries) {
      var i :| 0 <= i < |entries| && AddsName(entries[i]) && Get(entries[i].fields, "name").s == name;
      assert Get(entries[i].fields, "name") == JStr(name);
    }
  }

  /** `_fetch_local_models`: the loop that collects the names into a set. */
  method FetchLocalModels(reply: HttpReply) returns (r: Result<set<string>, ProxyError>)
    ensures r == LocalModels(reply)
  {
    var checked := StatusCheck(reply);
    if checked.Err? {
      return Err(checked.error);
    }
    if reply.body.None? {
      return Err(MalformedBody);
    }
    var entries := ListingEntries(reply.body.value);
    if entries.None? {
      return Err(MalformedBody);
    }
    var xs := entries.value;
    var names: set<string> := {};
    var i := 0;
    while i < |xs|
      invariant 0 <= i <= |xs|
      invariant forall j :: 0 <= j < i ==> Readable(xs[j])
      invariant names == set j | 0 <= j < i && AddsName(xs[j]) :: Get(xs[j].fields, "name").s
    {
      var m := xs[i];
      if !m.JObj? {
        return Err(MalformedBody);
      }
      var name := Get(m.fields, "name");
      if Truthy(name) {
        if !Hashable(name) {
          return Err(MalformedBody);
        }
        if name.JStr? {
          names := names + {name.s};
        }
      }
      i := i + 1;
    }
    return Ok(names);
  }

  /**
   * The cache of model names the backend holds locally, and when it was last refreshed.
   * `calls` records, for the proofs only, every request the cache sends to the backend.
   */
  class ModelCache {
    var names: set<string>
    var stamp: int
    const ttl: int
    ghost var calls: seq<BackendCall>

    /** The cached names never include the empty string: the listing drops empty names. */
    ghost predicate Valid()
      reads this
    {
      "" !in names
    }

    /** The module's initial state: an empty set stamped at time 0. */
    constructor (ttl: int)
      ensures Valid() && names == {} && stamp == 0 && this.ttl == ttl && calls == []
    {
      names := {};
      stamp := 0;
      this.ttl := ttl;
      calls := [];
    }

    /** The cached set is no longer trusted at time `now`. */
    predicate Stale(now: int)
      reads this
    {
      now - stamp > ttl
    }

    /** The answer `_has_model` gives at time `now`, refreshing from `listing` if stale. */
    function Probe(model: string, now: int, listing: HttpReply): Result<bool, ProxyError>
      reads this
    {
      if !Stale(now) then Ok(model in names)
      else
        match LocalModels(listing)
        case Ok(listed) => Ok(model in listed)
        case Err(e) => Err(e)
    }

    /**
     * The requests logged, the cached set and the stamp once `_ensure_model` has run from this
     * state: one listing when the cache is stale, one pull when the model turns out absent; a
     * successful refresh replaces the set and stamps it `now`, a successful pull resets the
     * stamp to 0.
     */
    ghost function EnsureState(autoPull: bool, model: string, now: int, listing: HttpReply, pull: HttpReply)
      : (r: (seq<BackendCall>, set<string>, int))
      reads this
      ensures !autoPull ==> r == (calls, names, stamp)
      ensures |calls| <= |r.0| <= |calls| + 2 && r.0[..|calls|] == calls
      ensures Pull(model) in r.0[|calls|..] <==> autoPull && Probe(model, now, listing) == Ok(false)
      ensures ListTags in r.0[|calls|..] <==> autoPull && Stale(now)
      ensures forall c :: c in r.0[|calls|..] ==> c == ListTags || c == Pull(model)
      ensures multiset(r.0[|calls|..])[ListTags] <= 1
      ensures multiset(r.0[|calls|..])[Pull(model)] <= 1
      ensures r.1 == if autoPull && Stale(now) && LocalModels(listing).Ok? then LocalModels(listing).value else names
      ensures Valid() ==> "" !in r.1
      ensures autoPull && Probe(model, now, listing) == Ok(false) && StatusCheck(pull).Ok? ==> r.2 == 0
      ensures (autoPull && Stale(now) && LocalModels(listing).Ok?
               && !(Probe(model, now, listing) == Ok(false) && StatusCheck(pull).Ok?)) ==> r.2 == now
      ensures (!(autoPull && Stale(now) && LocalModels(listing).Ok?)
               && !(autoPull && Probe(model, now, listing) == Ok(false) && StatusCheck(pull).Ok?)) ==> r.2 == stamp
    {
      if !autoPull then (calls, names, stamp)
      else
        var probe := Probe(model, now, listing);
        var refreshed := Stale(now) && LocalModels(listing).Ok?;
        var pulls := probe == Ok(false);
        var listed: seq<BackendCall> := if Stale(now) then [ListTags] else [];
        var pulled: seq<BackendCall> := if pulls then [Pull(model)] else [];
        assert (calls + listed + pulled)[|calls|..] == listed + pulled;
        ( calls + listed + pulled,
          if refreshed then LocalModels(listing).value else names,
          if pulls && StatusCheck(pull).Ok? then 0 else if refreshed then now else stamp )
    }

    /** The result `_ensure_model` reaches from this state. */
    function EnsureOutcome(autoPull: bool, model: string, now: int, listing: HttpReply, pull: HttpReply): Result<(), ProxyError>
      reads this
    {
      if !autoPull then Ok(())
      else
        match Probe(model, now, listing)
        case Err(e) => Err(e)
        case Ok(present) => if present then Ok(()) else StatusCheck(pull)
    }

    /**
     * `_has_model`: when the set is older than the TTL, refetch it (a failed fetch changes
     * nothing), then test membership. `listing` is the reply the backend would give.
     */
    method HasModel(model: string, now: int, listing: HttpReply) returns (r: Result<bool, ProxyError>)
      requires Valid()
      modifies this
      ensures Valid()
      ensures r == old(Probe(model, now, listing))
      ensures r == Ok(true) ==> model != ""
      ensures calls == old(calls) + (if old(Stale(now)) then [ListTags] else [])
      ensures old(Stale(now)) && LocalModels(listing).Ok? ==> names == LocalModels(listing).value && stamp == now
      ensures !(old(Stale(now)) && LocalModels(listing).Ok?) ==> names == old(names) && stamp == old(stamp)
    {
      if now - stamp > ttl {
        calls := calls + [ListTags];
        var fetched := FetchLocalModels(listing);
        if fetched.Err? {
          return Err(fetched.error);
        }
        names := fetched.value;
        stamp := now;
      }
      return Ok(model in names);
    }

    /**
     * `_pull_model`: ask the backend to pull `model` and wait; on success reset the stamp to 0
     * so that the next check refetches. A failed pull raises before the reset. The set itself
     * is never touched.
     */
    method PullModel(model: string, reply: HttpReply) returns (r: Result<(), ProxyError>)
      requires Valid()
      modifies this
      ensures Valid()
      ensures r == StatusCheck(reply)
      ensures calls == old(calls) + [Pull(model)]
      ensures names == old(names)
      ensures stamp == if r.Ok? then 0 else old(stamp)
    {
      calls := calls + [Pull(model)];
      var checked := StatusCheck(reply);
      if checked.Err? {
        return checked;
      }
      stamp := 0;
      return Ok(());
    }
  }

  /**
   * `_ensure_model`: nothing at all when auto-pull is off; otherwise check the cache and pull
   * only when the model is absent. At most one listing and at most one pull are sent.
   */
  method EnsureModel(cache: ModelCache, autoPull: bool, model: string, now: int, listing: HttpReply, pull: HttpReply)
    returns (r: Result<(), ProxyError>)
    requires cache.Valid()
    modifies cache
    ensures cache.Valid()
    ensures r == old(cache.EnsureOutcome(autoPull, model, now, listing, pull))
    ensures !autoPull ==> unchanged(cache)
    ensures (cache.calls, cache.names, cache.stamp) == old(cache.EnsureState(autoPull, model, now, listing, pull))
  {
    if !autoPull {
      return Ok(());
    }
    var present := cache.HasModel(model, now, listing);
    if present.Err? {
      assert cache.calls == old(cache.calls) + [ListTags] + [];
      return Err(present.error);
    }
    if !present.value {
      r := cache.PullModel(model, pull);
    } else {
      r := Ok(());
      assert cache.calls == cache.calls + [];
    }
  }

  /**
   * After a successful pull, the next check at any time past the TTL refetches the listing,
   * so the freshly pulled model is seen.
   */
  method PullForcesRefresh(cache: ModelCache, model: string, pull: HttpReply, later: int, listing: HttpReply)
    returns (present: Result<bool, ProxyError>)
    requires cache.Valid() && StatusCheck(pull).Ok? && later > cache.ttl
    modifies cache
    ensures cache.calls == old(cache.calls) + [Pull(model), ListTags]
    ensures present == (match LocalModels(listing) case Ok(listed) => Ok(model in listed) case Err(e) => Err(e))
  {
    var pulled := cache.PullModel(model, pull);
    present := cache.HasModel(model, later, listing);
  }

  /** A second check within the TTL of a refresh is answered from the cache without a request. */
  method RefreshIsReused(cache: ModelCache, first: string, second: string, now: int, later: int, listing: HttpReply, unused: HttpReply)
    returns (again: Result<bool, ProxyError>)
    requires cache.Valid() && cache.Stale(now) && LocalModels(listing).Ok?
    requires now <= later <= now + cache.ttl
    modifies cache
    ensures cache.calls == old(cache.calls) + [ListTags]
    ensures again == Ok(second in LocalModels(listing).value)
  {
    var present := cache.HasModel(first, now, listing);
    again := cache.HasModel(second, later, unused);
  }
}
