/**
 * The shared attribution slot and what an intercepted SDK method holds.
 *
 * `_current_function` is a one-element list that the interceptor mutates in
 * place and that every provider hook captured at patch time; a `FunctionSlot`
 * object is that list, shared by reference. A `Hook` is the value of one SDK
 * method attribute: the SDK's own function, or a wrapper around a saved
 * original that records into a captured tracker with a captured slot.
 */
module Attribution {
  import opened Results
  import opened Records
  import opened Tracker

  /** The name recorded when no profiled function is running. */
  const UnknownFunction := "<unknown>"

  /** The one-element list `_current_function`. */
  class FunctionSlot {
    var names: seq<string>

    /** `_current_function = ["<unknown>"]` */
    constructor()
      ensures names == [UnknownFunction]
    {
      names := [UnknownFunction];
    }

    /** `_current_function[0]`; indexing an empty list would raise, so the caller needs an element. */
    function Current(): (name: string)
      requires names != []
      reads this
      ensures name == names[0]
    {
      names[0]
    }

    /** `_current_function[0] = name`: replaces the head in place, keeping the list's length. */
    method Set(name: string)
      requires names != []
      modifies this
      ensures names == old(names)[0 := name]
      ensures Current() == name && |names| == |old(names)|
    {
      names := names[0 := name];
    }
  }

  /** What an SDK method attribute currently holds. */
  datatype Hook =
    | Native(sdk: nat)
    | Intercepting(original: Hook, ledger: Ledger, slot: FunctionSlot)

  /** `current_function[0] if current_function else "<unknown>"` */
  function HeadOrUnknown(slot: seq<string>): (name: string)
    ensures slot != [] ==> name == slot[0]
    ensures slot == [] ==> name == UnknownFunction
  {
    if slot != [] then slot[0] else UnknownFunction
  }

  /** `getattr(usage, field, 0) or 0`: an absent or None count reads as 0. */
  function CountOrZero(n: Option<nat>): (c: nat)
    ensures n.Some? ==> c == n.value
    ensures n.None? ==> c == 0
  {
    if n.Some? then n.value else 0
  }

  /** The records one hook invocation appends: none, or the one it built. */
  function Emitted(r: Option<CallRecord>): (rs: seq<CallRecord>)
    ensures |rs| <= 1
    ensures rs == [] <==> r.None?
    ensures r.Some? ==> rs == [r.value]
  {
    if r.Some? then [r.value] else []
  }
}
