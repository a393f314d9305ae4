/**
 * The Google Generative AI interceptor: the patch state over
 * `GenerativeModel.generate_content`, and the construction of a usage record from
 * the model instance's name and the response's usage metadata.
 */
module GoogleProvider {
  import opened Results
  import opened Records
  import opened Tracker
  import opened Pricing
  import opened Attribution

  const Provider := "google"

  /** `response.usage_metadata`: each count may be absent or None. */
  datatype UsageMetadata = UsageMetadata(promptTokenCount: Option<nat>, candidatesTokenCount: Option<nat>)

  /** The parts of a `generate_content` response the hook reads. */
  datatype GenerateResponse = GenerateResponse(usageMetadata: Option<UsageMetadata>)

  /** `s.split("/")[-1]`: the text after the last slash, or all of s when it has none. */
  function AfterLastSlash(s: string): (r: string)
    ensures |r| <= |s| && r == s[|s| - |r|..]
    ensures '/' !in r
    ensures '/' !in s ==> r == s
    ensures '/' in s ==> |r| < |s| && s[|s| - |r| - 1] == '/'
  {
    if s == [] then []
    else if s[|s| - 1] == '/' then []
    else
      var p := s[..|s| - 1];
      var r := AfterLastSlash(p);
      assert s == p + [s[|s| - 1]];
      r + [s[|s| - 1]]
  }

  /** Stripping once strips everything: a stripped name has no slash left to strip. */
  lemma AfterLastSlashIdempotent(s: string)
    ensures AfterLastSlash(AfterLastSlash(s)) == AfterLastSlash(s)
  {
  }

  /** `getattr(model_instance, "model_name", "unknown")`, then the last path segment. */
  function ModelName(modelName: Option<string>): (m: string)
    ensures modelName.None? ==> m == "unknown"
    ensures modelName.Some? ==> m == AfterLastSlash(modelName.value)
  {
    AfterLastSlash(if modelName.Some? then modelName.value else "unknown")
  }

  /** A resource name such as "models/gemini-1.5-pro" is recorded and priced as its model. */
  lemma ResourceName(name: string)
    requires '/' !in name
    ensures ModelName(Some("models/" + name)) == name
  {
    assert "models/" + name == "models" + "/" + name;
    AfterLastSlashOfSegment("models", name);
  }

  /** Whatever precedes the last slash is dropped. */
  lemma {:induction false} AfterLastSlashOfSegment(dir: string, name: string)
    requires '/' !in name
    ensures AfterLastSlash(dir + "/" + name) == name
  {
    if name == [] {
      assert dir + "/" + name == dir + "/";
    } else {
      var s := dir + "/" + name;
      var init := name[..|name| - 1];
      assert s[..|s| - 1] == dir + "/" + init;
      assert s[|s| - 1] == name[|name| - 1];
      AfterLastSlashOfSegment(dir, init);
      assert name == init + [name[|name| - 1]];
    }
  }

  /**
   * `_record`'s construction: no record without usage metadata; otherwise the
   * slot's head (or "<unknown>") is the function, missing counts are 0 and the
   * cost is priced from the stripped model name.
   */
  function UsageRecord(slot: seq<string>, modelName: Option<string>, response: GenerateResponse, durationMs: real): Option<CallRecord>
  {
    match response.usageMetadata
    case None => None
    case Some(u) =>
      var m := ModelName(modelName);
      var inputTokens := CountOrZero(u.promptTokenCount);
      var outputTokens := CountOrZero(u.candidatesTokenCount);
      Some(CallRecord(HeadOrUnknown(slot), slot, m, Provider, inputTokens, outputTokens,
                      Calculate(m, inputTokens, outputTokens), durationMs))
  }

  /**
   * What `_record` builds: nothing without usage metadata; otherwise a record
   * attributed to the slot's head (or "<unknown>") with the slot as call stack,
   * under "google", for the slash-free model name, with absent counts read as 0
   * and the non-negative price of those counts.
   */
  lemma UsageRecordFacts(slot: seq<string>, modelName: Option<string>, response: GenerateResponse, durationMs: real)
    ensures UsageRecord(slot, modelName, response, durationMs).None? <==> response.usageMetadata.None?
    ensures response.usageMetadata.Some? ==>
            var r := UsageRecord(slot, modelName, response, durationMs).value;
            var u := response.usageMetadata.value;
            (slot != [] ==> r.functionName == slot[0]) &&
            (slot == [] ==> r.functionName == UnknownFunction) &&
            r.callStack == slot && r.provider == "google" &&
            r.model == ModelName(modelName) && '/' !in r.model &&
            r.inputTokens == CountOrZero(u.promptTokenCount) &&
            r.outputTokens == CountOrZero(u.candidatesTokenCount) &&
            r.costUsd == Calculate(r.model, r.inputTokens, r.outputTokens) &&
            r.costUsd >= 0.0 && r.durationMs == durationMs
  {
    if response.usageMetadata.Some? {
      var r := UsageRecord(slot, modelName, response, durationMs).value;
      CostNonNegative(r.model, r.inputTokens, r.outputTokens);
    }
  }

  /** The module globals `_patched`, `_original_generate` and the SDK attribute they replace. */
  class Patcher {
    const sdkInstalled: bool
    var patched: bool
    var originalGenerate: Option<Hook>
    var generate: Hook

    predicate Valid()
      reads this
    {
      (patched ==> sdkInstalled) &&
      (!patched ==> originalGenerate.None? && generate.Native?) &&
      (patched ==> originalGenerate.Some? && originalGenerate.value.Native? &&
                   generate.Intercepting? && generate.original == originalGenerate.value)
    }

    constructor(sdkInstalled: bool, generateId: nat)
      ensures Valid() && !patched
      ensures this.sdkInstalled == sdkInstalled && generate == Native(generateId)
    {
      this.sdkInstalled := sdkInstalled;
      patched := false;
      originalGenerate := None;
      generate := Native(generateId);
    }

    /** `patch(tracker, current_function)`: as for OpenAI, with one attribute. */
    method Patch(t: Ledger, slot: FunctionSlot) returns (ok: bool)
      requires Valid()
      modifies this
      ensures Valid()
      ensures ok == sdkInstalled
      ensures patched == (old(patched) || sdkInstalled)
      ensures !sdkInstalled || old(patched) ==>
                patched == old(patched) && generate == old(generate) && originalGenerate == old(originalGenerate)
      ensures !sdkInstalled || old(patched) ==> unchanged(this)
      ensures sdkInstalled && !old(patched) ==>
                originalGenerate == Some(old(generate)) && generate == Intercepting(old(generate), t, slot)
    {
      if !sdkInstalled {
        return false;
      }
      if patched {
        return true;
      }
      originalGenerate := Some(generate);
      generate := Intercepting(generate, t, slot);
      patched := true;
      ok := true;
    }

    /** `unpatch()`: a no-op when not patched; otherwise restores and forgets the original. */
    method Unpatch()
      requires Valid()
      modifies this
      ensures Valid() && !patched
      ensures !old(patched) ==> generate == old(generate)
      ensures old(patched) ==> generate == old(originalGenerate).value
    {
      if !patched {
        return;
      }
      if originalGenerate.Some? {
        generate := originalGenerate.value;
      }
      patched := false;
      originalGenerate := None;
    }

    /** `model.generate_content(...)`: records through the wrapper, when installed, and returns the response. */
    method GenerateContent(modelName: Option<string>, response: GenerateResponse, durationMs: real) returns (r: GenerateResponse)
      requires Valid()
      modifies if generate.Intercepting? then generate.ledger.Footprint() else {}
      ensures r == response
      ensures generate.Intercepting? ==>
                generate.ledger.records == old(generate.ledger.records) +
                  Emitted(UsageRecord(old(generate.slot.names), modelName, response, durationMs))
    {
      r := response;
      if generate.Intercepting? {
        var rec := UsageRecord(generate.slot.names, modelName, response, durationMs);
        if rec.Some? {
          generate.ledger.Record(rec.value);
        }
      }
    }
  }

  /** Patching and then unpatching puts the SDK's own method back and leaves nothing saved. */
  method PatchUnpatchRestores(p: Patcher, t: Ledger, slot: FunctionSlot)
    requires p.Valid() && !p.patched
    modifies p
    ensures p.Valid() && !p.patched
    ensures p.generate == old(p.generate) && p.originalGenerate.None?
  {
    var _ := p.Patch(t, slot);
    p.Unpatch();
  }
}
