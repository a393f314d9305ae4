/**
 * The OpenAI interceptor: the patch state over `Completions.create` and its async
 * twin, and the construction of a usage record from a chat completion.
 */
module OpenAIProvider {
  import opened Results
  import opened Records
  import opened Tracker
  import opened Pricing
  import opened Attribution

  const Provider := "openai"

  /** `response.usage`: each count may be absent or None. */
  datatype TokenUsage = TokenUsage(promptTokens: Option<nat>, completionTokens: Option<nat>)

  /** The parts of a chat completion response the hook reads. */
  datatype Completion = Completion(usage: Option<TokenUsage>)

  /** `kwargs.get("model", "unknown")` */
  function ModelArgument(model: Option<string>): (m: string)
    ensures model.Some? ==> m == model.value
    ensures model.None? ==> m == "unknown"
  {
    if model.Some? then model.value else "unknown"
  }

  /**
   * `_record`'s construction: no record without usage; otherwise the slot's head
   * (or "<unknown>") is the function, the slot's copy the call stack, missing
   * counts are 0 and the cost is priced from the model argument.
   */
  function UsageRecord(slot: seq<string>, model: Option<string>, response: Completion, durationMs: real): Option<CallRecord>
  {
    match response.usage
    case None => None
    case Some(u) =>
      var m := ModelArgument(model);
      var inputTokens := CountOrZero(u.promptTokens);
      var outputTokens := CountOrZero(u.completionTokens);
      Some(CallRecord(HeadOrUnknown(slot), slot, m, Provider, inputTokens, outputTokens,
                      Calculate(m, inputTokens, outputTokens), durationMs))
  }

  /**
   * What `_record` builds: nothing without usage; otherwise a record attributed to
   * the slot's head (or "<unknown>") with the slot as call stack, under "openai",
   * for the model argument (default "unknown"), with absent counts read as 0 and
   * the non-negative price of those counts, the same for any letter case.
   */
  lemma UsageRecordFacts(slot: seq<string>, model: Option<string>, response: Completion, durationMs: real)
    ensures UsageRecord(slot, model, response, durationMs).None? <==> response.usage.None?
    ensures response.usage.Some? ==>
            var r := UsageRecord(slot, model, response, durationMs).value;
            var u := response.usage.value;
            (slot != [] ==> r.functionName == slot[0]) &&
            (slot == [] ==> r.functionName == UnknownFunction) &&
            r.callStack == slot && r.provider == "openai" &&
            r.model == ModelArgument(model) &&
            r.inputTokens == CountOrZero(u.promptTokens) &&
            r.outputTokens == CountOrZero(u.completionTokens) &&
            r.costUsd == Calculate(r.model, r.inputTokens, r.outputTokens) &&
            r.costUsd == Calculate(Lower(r.model), r.inputTokens, r.outputTokens) &&
            r.costUsd >= 0.0 && r.durationMs == durationMs
  {
    if response.usage.Some? {
      var r := UsageRecord(slot, model, response, durationMs).value;
      CostNonNegative(r.model, r.inputTokens, r.outputTokens);
      CaseInsensitive(r.model, r.inputTokens, r.outputTokens);
    }
  }

  /**
   * The module globals `_patched`, `_original_create`, `_original_acreate`, and the
   * two SDK attributes they save and replace. Whether the SDK (and its async
   * class) can be imported is fixed for the life of the process.
   */
  class Patcher {
    const sdkInstalled: bool
    const asyncInstalled: bool
    var patched: bool
    var originalCreate: Option<Hook>
    var originalAcreate: Option<Hook>
    var create: Hook
    var acreate: Hook

    /** Between calls: unpatched means nothing saved and the SDK's own methods in place. */
    predicate Valid()
      reads this
    {
      (patched ==> sdkInstalled) &&
      (!patched ==> originalCreate.None? && originalAcreate.None? && create.Native? && acreate.Native?) &&
      (patched ==> originalCreate.Some? && originalCreate.value.Native? &&
                   create.Intercepting? && create.original == originalCreate.value) &&
      (patched && asyncInstalled ==>
         originalAcreate.Some? && originalAcreate.value.Native? &&
         acreate.Intercepting? && acreate.original == originalAcreate.value &&
         acreate.ledger == create.ledger && acreate.slot == create.slot) &&
      (patched && !asyncInstalled ==> originalAcreate.None? && acreate.Native?)
    }

    /** A fresh process: nothing patched. */
    constructor(sdkInstalled: bool, asyncInstalled: bool, createId: nat, acreateId: nat)
      ensures Valid() && !patched
      ensures this.sdkInstalled == sdkInstalled && this.asyncInstalled == asyncInstalled
      ensures create == Native(createId) && acreate == Native(acreateId)
    {
      this.sdkInstalled := sdkInstalled;
      this.asyncInstalled := asyncInstalled;
      patched := false;
      originalCreate := None;
      originalAcreate := None;
      create := Native(createId);
      acreate := Native(acreateId);
    }

    /**
     * `patch(tracker, current_function)`: False and no change without the SDK; True
     * and no change when already patched (the first tracker stays captured);
     * otherwise saves the originals and installs wrappers around them.
     */
    method Patch(t: Ledger, slot: FunctionSlot) returns (ok: bool)
      requires Valid()
      modifies this
      ensures Valid()
      ensures ok == sdkInstalled
      ensures patched == (old(patched) || sdkInstalled)
      ensures !sdkInstalled || old(patched) ==>
                patched == old(patched) && create == old(create) && acreate == old(acreate) &&
                originalCreate == old(originalCreate) && originalAcreate == old(originalAcreate)
      ensures !sdkInstalled || old(patched) ==> unchanged(this)
      ensures sdkInstalled && !old(patched) ==>
                originalCreate == Some(old(create)) && create == Intercepting(old(create), t, slot) &&
                (asyncInstalled ==> originalAcreate == Some(old(acreate)) && acreate == Intercepting(old(acreate), t, slot)) &&
                (!asyncInstalled ==> acreate == old(acreate))
    {
      if !sdkInstalled {
        return false;
      }
      if patched {
        return true;
      }
      originalCreate := Some(create);
      create := Intercepting(create, t, slot);
      if asyncInstalled {
        originalAcreate := Some(acreate);
        acreate := Intercepting(acreate, t, slot);
      }
      patched := true;
      ok := true;
    }

    /** `unpatch()`: a no-op when not patched; otherwise restores the saved originals and forgets them. */
    method Unpatch()
      requires Valid()
      modifies this
      ensures Valid() && !patched
      ensures !old(patched) ==> create == old(create) && acreate == old(acreate)
      ensures old(patched) ==> create == old(originalCreate).value
      ensures old(patched) && asyncInstalled ==> acreate == old(originalAcreate).value
      ensures old(patched) && !asyncInstalled ==> acreate == old(acreate)
    {
      if !patched {
        return;
      }
      if originalCreate.Some? {
        create := originalCreate.value;
      }
      if asyncInstalled && originalAcreate.Some? {
        acreate := originalAcreate.value;
      }
      patched := false;
      originalCreate := None;
      originalAcreate := None;
    }

    /**
     * `Completions.create(model=..., ...)`: the SDK produces `response`; when the
     * wrapper is installed it records what the captured slot and tracker give and
     * returns the response unchanged.
     */
    method Create(model: Option<string>, response: Completion, durationMs: real) returns (r: Completion)
      requires Valid()
      modifies if create.Intercepting? then create.ledger.Footprint() else {}
      ensures r == response
      ensures create.Intercepting? ==>
                create.ledger.records == old(create.ledger.records) +
                  Emitted(UsageRecord(old(create.slot.names), model, response, durationMs))
    {
      r := response;
      if create.Intercepting? {
        var rec := UsageRecord(create.slot.names, model, response, durationMs);
        if rec.Some? {
          create.ledger.Record(rec.value);
        }
      }
    }

    /** `AsyncCompletions.create`, awaited: the same recording through the async wrapper. */
    method Acreate(model: Option<string>, response: Completion, durationMs: real) returns (r: Completion)
      requires Valid()
      modifies if acreate.Intercepting? then acreate.ledger.Footprint() else {}
      ensures r == response
      ensures acreate.Intercepting? ==>
                acreate.ledger.records == old(acreate.ledger.records) +
                  Emitted(UsageRecord(old(acreate.slot.names), model, response, durationMs))
    {
      r := response;
      if acreate.Intercepting? {
        var rec := UsageRecord(acreate.slot.names, model, response, durationMs);
        if rec.Some? {
          acreate.ledger.Record(rec.value);
        }
      }
    }
  }

  /** Patching and then unpatching puts the SDK's own methods back and leaves nothing saved. */
  method PatchUnpatchRestores(p: Patcher, t: Ledger, slot: FunctionSlot)
    requires p.Valid() && !p.patched
    modifies p
    ensures p.Valid() && !p.patched
    ensures p.create == old(p.create) && p.acreate == old(p.acreate)
    ensures p.originalCreate.None? && p.originalAcreate.None?
  {
    var _ := p.Patch(t, slot);
    p.Unpatch();
  }

  /** A second patch with another tracker keeps recording into the first. */
  method SecondPatchKeepsTracker(p: Patcher, t1: Ledger, t2: Ledger, slot: FunctionSlot) returns (ok2: bool)
    requires p.Valid() && !p.patched && p.sdkInstalled
    modifies p
    ensures ok2 && p.Valid()
    ensures p.create.Intercepting? && p.create.ledger == t1
  {
    var _ := p.Patch(t1, slot);
    ok2 := p.Patch(t2, slot);
  }
}
