/**
 * The Antigravity (Cloud Code Assist) helpers of
 * pkg/providers/antigravity_auth.go: the project-ID and model-list replies,
 * the completion of the model list with the two Gemini 3 Flash models, and
 * the truncation of error bodies. The HTTP requests and JSON decoding are
 * not part of this model: their outcomes are parameters.
 */
module Antigravity {
  import opened Wrappers

  /** One available model. */
  datatype ModelInfo = ModelInfo(id: string, displayName: string, isExhausted: bool)

  /** The fields of one decoded model entry that are kept. */
  datatype ModelEntry = ModelEntry(displayName: string, isExhausted: bool)

  datatype FetchError =
    | RequestFailed(status: int, body: string)
    | ParseFailed
    | NoProjectId

  /** truncateBody: text longer than maxLen keeps its first maxLen bytes and gains "...". */
  function TruncateBody(s: string, maxLen: nat): (r: string)
    ensures |s| <= maxLen ==> r == s
    ensures |s| > maxLen ==> |r| == maxLen + 3 && r[..maxLen] == s[..maxLen] && r[maxLen..] == "..."
  {
    if |s| <= maxLen then s else s[..maxLen] + "..."
  }

  /**
   * FetchAntigravityProjectID after the request: a reply other than 200 is
   * an error carrying the body, an undecodable body is an error, and so is
   * an empty project ID.
   */
  function ProjectIdFromReply(status: int, body: string, decoded: Option<string>): (r: Result<string, FetchError>)
    ensures r.Ok? <==> status == 200 && decoded.Some? && decoded.value != ""
    ensures r.Ok? ==> r.value == decoded.value
    ensures status != 200 ==> r == Err(RequestFailed(status, body))
    ensures status == 200 && decoded.None? ==> r == Err(ParseFailed)
    ensures status == 200 && decoded == Some("") ==> r == Err(NoProjectId)
  {
    if status != 200 then Err(RequestFailed(status, body))
    else if decoded.None? then Err(ParseFailed)
    else if decoded.value == "" then Err(NoProjectId)
    else Ok(decoded.value)
  }

  /** The model ids in a list. */
  function Ids(models: seq<ModelInfo>): (ids: seq<string>)
    ensures |ids| == |models| && forall k :: 0 <= k < |models| ==> ids[k] == models[k].id
  {
    seq(|models|, k requires 0 <= k < |models| => models[k].id)
  }

  predicate DistinctIds(models: seq<ModelInfo>) {
    forall a, b :: 0 <= a < b < |models| ==> models[a].id != models[b].id
  }

  /** The model is a decoded entry with its display name and exhausted flag. */
  predicate FromEntry(decoded: map<string, ModelEntry>, m: ModelInfo) {
    m.id in decoded && m.displayName == decoded[m.id].displayName && m.isExhausted == decoded[m.id].isExhausted
  }

  /**
   * The loop over the decoded models: one entry per model, with its id,
   * display name and exhausted flag, in no particular order.
   */
  method CollectModels(decoded: map<string, ModelEntry>) returns (models: seq<ModelInfo>)
    ensures |models| == |decoded.Keys| && DistinctIds(models)
    ensures forall k :: 0 <= k < |models| ==> FromEntry(decoded, models[k])
    ensures forall id :: id in decoded ==> id in Ids(models)
  {
    models := [];
    var todo := decoded.Keys;
    while todo != {}
      invariant todo <= decoded.Keys
      invariant |models| + |todo| == |decoded.Keys| && DistinctIds(models)
      invariant forall k :: 0 <= k < |models| ==> FromEntry(decoded, models[k]) && models[k].id !in todo
      invariant forall id :: id in decoded && id !in todo ==> id in Ids(models)
      decreases todo
    {
      var id :| id in todo;
      var info := decoded[id];
      ghost var before := models;
      models := models + [ModelInfo(id, info.displayName, info.isExhausted)];
      assert forall x :: x in Ids(before) ==> x in Ids(models) by {
        forall x | x in Ids(before) ensures x in Ids(models) {
          var k :| 0 <= k < |before| && Ids(before)[k] == x;
          assert Ids(models)[k] == x;
        }
      }
      assert Ids(models)[|before|] == id;
      todo := todo - {id};
    }
  }

  const FlashPreview := ModelInfo("gemini-3-flash-preview", "Gemini 3 Flash (Preview)", false)
  const Flash := ModelInfo("gemini-3-flash", "Gemini 3 Flash", false)

  /** The list with Gemini 3 Flash (Preview), then Gemini 3 Flash, appended when missing. */
  function WithFlashModels(models: seq<ModelInfo>): seq<ModelInfo> {
    models
    + (if FlashPreview.id in Ids(models) then [] else [FlashPreview])
    + (if Flash.id in Ids(models) then [] else [Flash])
  }

  /** The completion at the end of FetchAntigravityModels: one scan for the two ids, then the appends. */
  method EnsureFlashModels(models: seq<ModelInfo>) returns (r: seq<ModelInfo>)
    ensures r == WithFlashModels(models)
  {
    var hasFlashPreview, hasFlash := false, false;
    for k := 0 to |models|
      invariant hasFlashPreview <==> FlashPreview.id in Ids(models[..k])
      invariant hasFlash <==> Flash.id in Ids(models[..k])
    {
      assert Ids(models[..k + 1]) == Ids(models[..k]) + [models[k].id];
      if models[k].id == FlashPreview.id {
        hasFlashPreview := true;
      }
      if models[k].id == Flash.id {
        hasFlash := true;
      }
    }
    assert models[..|models|] == models;
    r := models;
    if !hasFlashPreview {
      r := r + [FlashPreview];
    }
    if !hasFlash {
      r := r + [Flash];
    }
  }

  /**
   * After completion both Flash models are listed; the original list is an
   * unchanged prefix, and nothing already present is added again.
   */
  lemma FlashModelsPresent(models: seq<ModelInfo>)
    ensures FlashPreview.id in Ids(WithFlashModels(models)) && Flash.id in Ids(WithFlashModels(models))
    ensures WithFlashModels(models)[..|models|] == models
    ensures |WithFlashModels(models)| - |models| ==
      (if FlashPreview.id in Ids(models) then 0 else 1) + (if Flash.id in Ids(models) then 0 else 1)
  {
    var r := WithFlashModels(models);
    var tail := r[|models|..];
    assert r == models + tail;
    if FlashPreview.id !in Ids(models) {
      assert Ids(r)[|models|] == FlashPreview.id;
    } else {
      var k :| 0 <= k < |models| && Ids(models)[k] == FlashPreview.id;
      assert Ids(r)[k] == FlashPreview.id;
    }
    if Flash.id !in Ids(models) {
      assert Ids(r)[|r| - 1] == Flash.id;
    } else {
      var k :| 0 <= k < |models| && Ids(models)[k] == Flash.id;
      assert Ids(r)[k] == Flash.id;
    }
  }

  /** Completing a list of distinct ids keeps the ids distinct. */
  lemma FlashModelsDistinct(models: seq<ModelInfo>)
    requires DistinctIds(models)
    ensures DistinctIds(WithFlashModels(models))
  {
    var r := WithFlashModels(models);
    forall a, b | 0 <= a < b < |r| ensures r[a].id != r[b].id {
      if b >= |models| && a < |models| {
        assert Ids(models)[a] == r[a].id;
      }
    }
  }

  /**
   * FetchAntigravityModels after the request: a reply other than 200 is an
   * error with the body cut to 200 bytes, an undecodable body is an error,
   * otherwise the decoded models completed with the Flash models.
   */
  method FetchAntigravityModels(status: int, body: string, decoded: Option<map<string, ModelEntry>>)
    returns (r: Result<seq<ModelInfo>, FetchError>)
    ensures status != 200 ==> r == Err(RequestFailed(status, TruncateBody(body, 200)))
    ensures status == 200 && decoded.None? ==> r == Err(ParseFailed)
    ensures r.Ok? ==> (status == 200 && decoded.Some? && DistinctIds(r.value) &&
      |r.value| >= |decoded.value.Keys| &&
      (forall k :: 0 <= k < |decoded.value.Keys| ==> FromEntry(decoded.value, r.value[k])) &&
      (forall id :: id in decoded.value ==> id in Ids(r.value)) &&
      FlashPreview.id in Ids(r.value) && Flash.id in Ids(r.value))
    ensures status == 200 && decoded.Some? ==> r.Ok?
    ensures r.Ok? ==> r.value == WithFlashModels(r.value[..|decoded.value.Keys|])
  {
    if status != 200 {
      return Err(RequestFailed(status, TruncateBody(body, 200)));
    }
    if decoded.None? {
      return Err(ParseFailed);
    }
    var models := CollectModels(decoded.value);
    var completed := EnsureFlashModels(models);
    FlashModelsPresent(models);
    FlashModelsDistinct(models);
    forall id | id in decoded.value ensures id in Ids(completed) {
      var k :| 0 <= k < |models| && Ids(models)[k] == id;
      assert Ids(completed)[k] == id;
    }
    return Ok(completed);
  }
}
