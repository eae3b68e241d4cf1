/**
 * `_apply_model`: putting the selected model into a decoded request body. A JSON object is a
 * Python dict that is updated in place; any other decoded value passes through untouched.
 */
module ModelInjection {
  import opened JsonValue

  /** A decoded JSON object as the mutable dict `request.json()` hands back. */
  class JsonDict {
    var entries: map<string, Json>

    constructor (entries: map<string, Json>)
      ensures this.entries == entries
    {
      this.entries := entries;
    }
  }

  /** What `request.json()` returned: a dict, or some other decoded value. */
  datatype Payload = DictPayload(dict: JsonDict) | OtherPayload(value: Json)

  /**
   * The entries of a dict after the model is put in: with `force` the `model` key is
   * overwritten, without it the key is only added when missing (`setdefault`).
   */
  function WithModel(entries: map<string, Json>, model: string, force: bool): (r: map<string, Json>)
    ensures r.Keys == entries.Keys + {"model"}
    ensures forall k :: k in entries && k != "model" ==> r[k] == entries[k]
    ensures force ==> r["model"] == JStr(model)
    ensures !force && "model" in entries ==> r["model"] == entries["model"]
    ensures !force && "model" !in entries ==> r["model"] == JStr(model)
  {
    if force || "model" !in entries then entries["model" := JStr(model)] else entries
  }

  /** Putting the model in a second time changes nothing. */
  lemma WithModelIdempotent(entries: map<string, Json>, model: string, force: bool)
    ensures WithModel(WithModel(entries, model, force), model, force) == WithModel(entries, model, force)
  {
  }

  /** Without `force`, a model the client already named is never replaced. */
  lemma UnforcedKeepsClientModel(entries: map<string, Json>, model: string)
    requires "model" in entries
    ensures WithModel(entries, model, false) == entries
  {
  }

  /**
   * `_apply_model(payload, model, force)`: a dict is updated in place and returned; anything
   * else is returned as it is.
   */
  method ApplyModel(payload: Payload, model: string, force: bool) returns (r: Payload)
    modifies if payload.DictPayload? then {payload.dict} else {}
    ensures r == payload
    ensures payload.DictPayload? ==> payload.dict.entries == WithModel(old(payload.dict.entries), model, force)
  {
    if !payload.DictPayload? {
      return payload;
    }
    var d := payload.dict;
    if force {
      d.entries := d.entries["model" := JStr(model)];
    } else if "model" !in d.entries {
      d.entries := d.entries["model" := JStr(model)];
    }
    return payload;
  }
}
