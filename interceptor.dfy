/**
 * The interceptor's process-wide state: the shared attribution slot, the
 * `_active` flag, the provider patchers it coordinates and the global tracker
 * that `activate()` falls back to.
 */
module Interceptor {
  import opened Results
  import opened Records
  import opened Tracker
  import opened Attribution
  import OpenAI = OpenAIProvider
  import Google = GoogleProvider

  class Globals {
    /** `_current_function`, shared with every hook a patch installs. */
    const slot: FunctionSlot
    const openai: OpenAI.Patcher
    const google: Google.Patcher
    /** `_active` */
    var active: bool
    /** What `get_global_tracker()` returns. */
    var globalTracker: Ledger

    /** The slot always holds exactly one name, and each patcher is in a consistent state. */
    predicate Valid()
      reads this, slot, openai, google
    {
      |slot.names| == 1 && openai.Valid() && google.Valid()
    }

    /** Process start: nothing patched, not active, the slot reads "<unknown>". */
    constructor(openai: OpenAI.Patcher, google: Google.Patcher, globalTracker: Ledger)
      requires openai.Valid() && !openai.patched && google.Valid() && !google.patched
      ensures Valid() && fresh(slot)
      ensures slot.names == [UnknownFunction] && !active
      ensures this.openai == openai && this.google == google && this.globalTracker == globalTracker
    {
      slot := new FunctionSlot();
      this.openai := openai;
      this.google := google;
      active := false;
      this.globalTracker := globalTracker;
    }

    /** `get_current_function()` */
    function CurrentFunction(): (name: string)
      requires Valid()
      reads this, slot, openai, google
      ensures slot.names == [name]
    {
      slot.Current()
    }

    /** `set_current_function(name)`: the one shared list is updated in place. */
    method SetCurrentFunction(name: string)
      requires Valid()
      modifies slot
      ensures Valid() && CurrentFunction() == name
    {
      slot.Set(name);
    }

    /** Every provider is patched or has no SDK, so a further `activate` changes no hook. */
    predicate Settled()
      reads this, openai, google
    {
      (openai.patched || !openai.sdkInstalled) && (google.patched || !google.sdkInstalled)
    }

    /**
     * What `activate(t)` did to the providers since the earlier state: one already
     * patched, or without its SDK, is left exactly as it was; any other has saved
     * its methods (OpenAI's async one only when that class exists) and replaced
     * them with wrappers that record into t under the shared slot.
     */
    twostate predicate Activated(new t: Ledger)
      reads this, openai, google
    {
      openai.patched == (old(openai.patched) || openai.sdkInstalled) &&
      google.patched == (old(google.patched) || google.sdkInstalled) &&
      (old(openai.patched) || !openai.sdkInstalled ==> unchanged(openai)) &&
      (old(google.patched) || !google.sdkInstalled ==> unchanged(google)) &&
      (!old(openai.patched) && openai.sdkInstalled ==>
         openai.originalCreate == Some(old(openai.create)) &&
         openai.create == Hook.Intercepting(old(openai.create), t, slot) &&
         (openai.asyncInstalled ==>
            openai.originalAcreate == Some(old(openai.acreate)) &&
            openai.acreate == Hook.Intercepting(old(openai.acreate), t, slot)) &&
         (!openai.asyncInstalled ==> openai.acreate == old(openai.acreate))) &&
      (!old(google.patched) && google.sdkInstalled ==>
         google.originalGenerate == Some(old(google.generate)) &&
         google.generate == Hook.Intercepting(old(google.generate), t, slot))
    }

    /** `is_active()` */
    function IsActive(): bool
      reads this
    {
      active
    }

    /**
     * `activate(tracker)`: `None` means the global tracker. Each provider is
     * patched with that tracker and the shared slot, which changes nothing for a
     * provider already patched; the flag is set.
     */
    method Activate(tracker: Option<Ledger>)
      requires Valid()
      modifies this, openai, google
      ensures Valid() && IsActive() && Settled()
      ensures globalTracker == old(globalTracker) && slot.names == old(slot.names)
      ensures Activated(if tracker.Some? then tracker.value else globalTracker)
    {
      var t := if tracker.Some? then tracker.value else globalTracker;
      var _ := openai.Patch(t, slot);
      var _ := google.Patch(t, slot);
      active := true;
    }

    /** `deactivate()`: unpatches every provider, whoever activated it, and clears the flag. */
    method Deactivate()
      requires Valid()
      modifies this, openai, google
      ensures Valid() && !IsActive()
      ensures !openai.patched && !google.patched
      ensures globalTracker == old(globalTracker)
      ensures old(openai.patched) ==> openai.create == old(openai.originalCreate).value
      ensures old(google.patched) ==> google.generate == old(google.originalGenerate).value
      ensures old(openai.patched) && openai.asyncInstalled ==> openai.acreate == old(openai.originalAcreate).value
      ensures old(openai.patched) && !openai.asyncInstalled ==> openai.acreate == old(openai.acreate)
      ensures !old(openai.patched) ==> openai.create == old(openai.create) && openai.acreate == old(openai.acreate)
      ensures !old(google.patched) ==> google.generate == old(google.generate)
    {
      openai.Unpatch();
      google.Unpatch();
      active := false;
    }

    /** `set_global_tracker(tracker)` */
    method SetGlobalTracker(t: Ledger)
      modifies this
      ensures globalTracker == t && active == old(active)
    {
      globalTracker := t;
    }
  }

  /** Activating twice, even with another tracker, leaves the hooks as activating once did. */
  method ActivateTwice(g: Globals, t1: Option<Ledger>, t2: Option<Ledger>)
    requires g.Valid()
    modifies g, g.openai, g.google
    ensures g.Valid() && g.IsActive()
    ensures !old(g.openai.patched) && g.openai.sdkInstalled ==>
              g.openai.create == Hook.Intercepting(old(g.openai.create), if t1.Some? then t1.value else g.globalTracker, g.slot)
    ensures !old(g.google.patched) && g.google.sdkInstalled ==>
              g.google.generate == Hook.Intercepting(old(g.google.generate), if t1.Some? then t1.value else g.globalTracker, g.slot)
  {
    g.Activate(t1);
    g.Activate(t2);
  }

  /** Activate then deactivate: every SDK method is its own again and nothing is active. */
  method ActivateDeactivate(g: Globals, t: Option<Ledger>)
    requires g.Valid() && !g.openai.patched && !g.google.patched
    modifies g, g.openai, g.google
    ensures g.Valid() && !g.IsActive()
    ensures g.openai.create == old(g.openai.create) && g.openai.acreate == old(g.openai.acreate)
    ensures g.google.generate == old(g.google.generate)
  {
    g.Activate(t);
    g.Deactivate();
  }

  /**
   * A hook installed by `activate` reads the slot it was given, so a name set
   * afterwards is the function the next intercepted OpenAI call is recorded under.
   */
  method RecordsUnderCurrentName(g: Globals, t: Ledger, name: string, model: string, response: OpenAI.Completion)
    requires g.Valid() && !g.openai.patched && g.openai.sdkInstalled
    requires response.usage.Some?
    modifies g, g.openai, g.google, g.slot, t.Footprint()
    ensures |t.records| == |old(t.records)| + 1
    ensures t.records[|t.records| - 1].functionName == name
    ensures t.records[|t.records| - 1].callStack == [name]
  {
    g.Activate(Some(t));
    g.SetCurrentFunction(name);
    CallThroughHook(g.openai, t, g.slot, name, model, response);
  }

  /** An OpenAI call through a hook over t and a slot naming one function: one record, under that name. */
  method CallThroughHook(p: OpenAI.Patcher, t: Ledger, slot: FunctionSlot, name: string, model: string, response: OpenAI.Completion)
    requires p.Valid() && p.create.Intercepting? && p.create.ledger == t && p.create.slot == slot && slot.names == [name]
    requires response.usage.Some?
    modifies t.Footprint()
    ensures |t.records| == |old(t.records)| + 1
    ensures t.records[|t.records| - 1].functionName == name
    ensures t.records[|t.records| - 1].callStack == [name]
  {
    ghost var rec := OpenAI.UsageRecord([name], Some(model), response, 0.0);
    assert rec.Some? && rec.value.functionName == name && rec.value.callStack == [name];
    var _ := p.Create(Some(model), response, 0.0);
  }
}
