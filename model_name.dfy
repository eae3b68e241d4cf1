/**
 * Model-name normalisation and per-request model selection.
 * A client may glue a request path onto the model value (`deepseek-r1:latest/chat/completions`);
 * normalisation recovers the model name from it.
 */
module ModelName {
  import opened PyText

  /**
   * `_normalize_model`: strip the value; if it is empty, the result is empty; if it contains `/`,
   * keep what precedes the first `/` and strip that again.
   */
  function Normalize(raw: string): (r: string)
    ensures '/' !in r && IsTrimmed(r)
    ensures |r| <= |raw|
  {
    var m := Trim(raw);
    if m == "" then ""
    else if '/' in m then
      TrimKeepsNoSlash(FirstSegment(m));
      Trim(FirstSegment(m))
    else m
  }

  /**
   * Reference definition: the normalised name is the first `/`-separated segment of the raw
   * value, with surrounding whitespace removed. The two strips of the source amount to one.
   */
  lemma NormalizeIsTrimmedFirstSegment(raw: string)
    ensures Normalize(raw) == Trim(FirstSegment(raw))
  {
    if '/' in raw {
      NormalizeCutsAtSlash(raw);
    } else {
      assert raw[..|raw|] == raw;
      SlashIndexUnique(raw, |raw|);
      TrimKeepsNoSlash(raw);
    }
  }

  lemma NormalizeCutsAtSlash(raw: string)
    requires '/' in raw
    ensures Normalize(raw) == Trim(FirstSegment(raw))
  {
    var a, b := TrimBounds(raw);
    var p := SlashIndex(raw);
    assert raw[..|raw|] == raw;
    assert p < |raw| && raw[p] == '/';
    assert !IsSpace('/');
    assert a <= p by {
      SpacePrefix(raw, a);
    }
    assert p < b by {
      SpaceSuffix(raw, b);
    }
    NormalizeTrimmedCut(raw, a, b, p);
    PrefixSplits(raw, a, p);
    TrimSkipsLeadingSpace(raw[..a], raw[a..p]);
  }

  /** With the stripped value at `raw[a..b]` and the first `/` at `p` inside it, normalisation strips `raw[a..p]`. */
  lemma NormalizeTrimmedCut(raw: string, a: nat, b: nat, p: nat)
    requires a <= p < b <= |raw| && Trim(raw) == raw[a..b]
    requires p == SlashIndex(raw) && raw[p] == '/'
    ensures Normalize(raw) == Trim(raw[a..p])
  {
    FirstSegmentOfSlice(raw, a, b, p);
    assert raw[a..b][p - a] == '/';
  }

  /** The first `/` of `raw` at `p`, inside `raw[a..b]`, is also the first `/` of the slice. */
  lemma FirstSegmentOfSlice(raw: string, a: nat, b: nat, p: nat)
    requires a <= p < b <= |raw|
    requires p == SlashIndex(raw)
    ensures FirstSegment(raw[a..b]) == raw[a..p]
  {
    SliceOfSlice(raw, a, b, p - a);
    NoSlashInSlice(raw, a, p);
    SlashIndexUnique(raw[a..b], p - a);
  }

  /** Normalising twice is the same as normalising once. */
  lemma NormalizeIdempotent(raw: string)
    ensures Normalize(Normalize(raw)) == Normalize(raw)
  {
    TrimFixesTrimmed(Normalize(raw));
  }

  /** The result is empty exactly when nothing but whitespace precedes the first `/`. */
  lemma NormalizeEmptyIff(raw: string)
    ensures Normalize(raw) == "" <==> AllSpace(FirstSegment(raw))
  {
    NormalizeIsTrimmedFirstSegment(raw);
    TrimEmptyIff(FirstSegment(raw));
  }

  /** A path glued onto a clean model name is cut off again, whatever the path holds. */
  lemma NormalizeDropsAppendedPath(name: string, path: string)
    requires name != "" && '/' !in name && IsTrimmed(name)
    ensures Normalize(name + "/" + path) == name
  {
    NormalizeIsTrimmedFirstSegment(name + "/" + path);
    FirstSegmentOfJoin(name, path);
    TrimFixesTrimmed(name);
  }

  /** The malformed value quoted in the source's docstring normalises to the model name. */
  lemma NormalizeDeepseekExample()
    ensures Normalize("deepseek-r1:latest/chat/completions") == "deepseek-r1:latest"
  {
    assert "deepseek-r1:latest/chat/completions" == "deepseek-r1:latest" + "/" + "chat/completions";
    NormalizeDropsAppendedPath("deepseek-r1:latest", "chat/completions");
  }

  /**
   * A non-blank value can still normalise to the empty string: a leading `/` leaves nothing
   * before the first separator. Emptiness is decided by the first segment, not by the whole value.
   */
  lemma NormalizeLeadingSlashIsEmpty()
    ensures Trim("/chat") != "" && Normalize("/chat") == ""
  {
    var raw := "/chat";
    TrimOfPadded([], raw, []);
    assert [] + raw + [] == raw;
    SlashIndexUnique(raw, 0);
    NormalizeEmptyIff(raw);
  }

  /**
   * `_pick_model`: a `model` query value that is present, non-empty and normalises to a
   * non-empty name wins; otherwise the configured default is used.
   */
  function PickModel(query: map<string, string>, defaultModel: string): (r: string)
    ensures "model" in query && Normalize(query["model"]) != "" ==> r == Normalize(query["model"])
    ensures !("model" in query && Normalize(query["model"]) != "") ==> r == defaultModel
    ensures defaultModel != "" ==> r != ""
    ensures '/' !in defaultModel ==> '/' !in r
  {
    var given := if "model" in query then query["model"] else "";
    var m := if given != "" then Normalize(given) else "";
    if m != "" then m else defaultModel
  }

  /** `?model=foo` selects `foo` whatever the configured default is. */
  lemma PickModelIgnoresDefault(query: map<string, string>, d1: string, d2: string)
    requires "model" in query && Normalize(query["model"]) != ""
    ensures PickModel(query, d1) == PickModel(query, d2) == Normalize(query["model"])
  {
  }

  /** The selected model is always a fixed point of normalisation when the default is one. */
  lemma PickModelIsNormalized(query: map<string, string>, defaultModel: string)
    requires Normalize(defaultModel) == defaultModel
    ensures Normalize(PickModel(query, defaultModel)) == PickModel(query, defaultModel)
  {
    if "model" in query && Normalize(query["model"]) != "" {
      NormalizeIdempotent(query["model"]);
    }
  }
}
