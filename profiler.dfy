/**
 * The `@profile` wrapper, the `Session` context manager and `init`.
 *
 * A profiled function is described by what its body does to and with the shared
 * attribution slot: it may read the current function (as every intercepted
 * provider call does), set it itself, or call another profiled function; at the
 * end it returns a value or raises. `Called` is the reference semantics of one
 * call through the wrapper; `Profile` is the wrapper itself, a method over the
 * interceptor's state, proved to agree with `Called`.
 */
module Profiler {
  import opened Results
  import opened Records
  import opened Tracker
  import opened Attribution
  import opened Interceptor

  /** One thing the wrapped function's body does. */
  datatype Step =
    | Observe                // reads `get_current_function()`
    | Rename(name: string)   // calls `set_current_function(name)` itself
    | Call(callee: Fn)       // calls another `@profile`-wrapped function
    | TryCall(callee: Fn)    // the same call inside `try: ... except: pass`

  /** A wrapped function: its `__qualname__`, its body, and what it returns or raises once the body is done. */
  datatype Fn = Fn(qualname: string, body: seq<Step>, outcome: Result<int>)

  /** What one call did: the names its body saw, in order, and its outcome. */
  datatype Run = Run(seen: seq<string>, outcome: Result<int>)

  /**
   * The body of f from step i on, with `current` in the slot. A nested wrapped
   * call restores the slot when it ends; an exception it raises ends f with the
   * same exception, unless the call is a `TryCall`, whose exception the body
   * catches before going on.
   */
  function RunFrom(f: Fn, i: nat, current: string): Run
    requires i <= |f.body|
    decreases f, |f.body| - i
  {
    if i == |f.body| then Run([], f.outcome)
    else
      match f.body[i]
      case Observe =>
        var rest := RunFrom(f, i + 1, current);
        Run([current] + rest.seen, rest.outcome)
      case Rename(n) =>
        RunFrom(f, i + 1, n)
      case Call(c) =>
        assert f.body[i] in f.body;
        var inner := Called(c);
        if inner.outcome.Raised? then inner
        else
          var rest := RunFrom(f, i + 1, current);
          Run(inner.seen + rest.seen, rest.outcome)
      case TryCall(c) =>
        assert f.body[i] in f.body;
        var inner := Called(c);
        var rest := RunFrom(f, i + 1, current);
        Run(inner.seen + rest.seen, rest.outcome)
  }

  /** A call through the wrapper: the body runs with the function's qualname in the slot. */
  function Called(f: Fn): Run
    decreases f, |f.body| + 1
  {
    RunFrom(f, 0, f.qualname)
  }

  /**
   * The wrapper: activates interception with the global tracker, saves the
   * current name, sets the qualname, runs the body, and in every case (return
   * or raise) puts the saved name back. Afterwards every provider with an SDK
   * records into the global tracker, unless it was already patched before.
   */
  method Profile(g: Globals, f: Fn) returns (r: Result<int>, seen: seq<string>)
    requires g.Valid()
    modifies g, g.openai, g.google, g.slot
    ensures g.Valid() && g.IsActive() && g.Settled()
    ensures g.Activated(old(g.globalTracker))
    ensures Run(seen, r) == Called(f)
    ensures g.slot.names == old(g.slot.names)
    ensures g.globalTracker == old(g.globalTracker)
    decreases f, 2
  {
    g.Activate(Some(g.globalTracker));
    var prev := g.CurrentFunction();
    g.SetCurrentFunction(f.qualname);
    r, seen := RunBody(g, f);
    g.SetCurrentFunction(prev);
  }

  /** The wrapped function's body, run with its qualname in the slot; an uncaught exception from a nested call ends it. */
  method RunBody(g: Globals, f: Fn) returns (r: Result<int>, seen: seq<string>)
    requires g.Valid() && g.IsActive() && g.Settled() && g.CurrentFunction() == f.qualname
    modifies g, g.openai, g.google, g.slot
    ensures g.Valid() && g.IsActive() && unchanged(g.openai, g.google)
    ensures Run(seen, r) == Called(f)
    ensures g.globalTracker == old(g.globalTracker)
    decreases f, 1
  {
    seen := [];
    var raised: Option<Exception> := None;
    var i := 0;
    while i < |f.body| && raised.None?
      invariant 0 <= i <= |f.body|
      invariant g.Valid() && g.IsActive() && g.globalTracker == old(g.globalTracker)
      invariant unchanged(g.openai, g.google)
      invariant raised.None? ==>
                  Called(f) == Run(seen + RunFrom(f, i, g.CurrentFunction()).seen, RunFrom(f, i, g.CurrentFunction()).outcome)
      invariant raised.Some? ==> Called(f) == Run(seen, Raised(raised.value))
      decreases |f.body| - i
    {
      seen, raised := RunStep(g, f, i, seen);
      i := i + 1;
    }
    r := if raised.Some? then Raised(raised.value) else f.outcome;
  }

  /** Step i of the body: read the slot, set it, or make a nested wrapped call that may raise, or whose exception it catches. */
  method RunStep(g: Globals, f: Fn, i: nat, seen: seq<string>) returns (seen': seq<string>, raised: Option<Exception>)
    requires i < |f.body| && g.Valid() && g.IsActive() && g.Settled()
    requires Called(f) == Run(seen + RunFrom(f, i, g.CurrentFunction()).seen, RunFrom(f, i, g.CurrentFunction()).outcome)
    modifies g, g.openai, g.google, g.slot
    ensures g.Valid() && g.IsActive() && g.globalTracker == old(g.globalTracker)
    ensures unchanged(g.openai, g.google)
    ensures raised.None? ==>
              Called(f) == Run(seen' + RunFrom(f, i + 1, g.CurrentFunction()).seen, RunFrom(f, i + 1, g.CurrentFunction()).outcome)
    ensures raised.Some? ==> Called(f) == Run(seen', Raised(raised.value))
    decreases f, 0
  {
    var cur := g.CurrentFunction();
    var rest := RunFrom(f, i + 1, cur);
    seen', raised := seen, None;
    match f.body[i] {
      case Observe =>
        assert seen + ([cur] + rest.seen) == (seen + [cur]) + rest.seen;
        seen' := seen + [cur];
      case Rename(n) =>
        g.SetCurrentFunction(n);
      case Call(c) =>
        assert f.body[i] in f.body;
        var innerResult, innerSeen := Profile(g, c);
        assert g.CurrentFunction() == cur;
        if innerResult.Raised? {
          raised := Some(innerResult.error);
        } else {
          assert seen + (innerSeen + rest.seen) == (seen + innerSeen) + rest.seen;
        }
        seen' := seen + innerSeen;
      case TryCall(c) =>
        assert f.body[i] in f.body;
        var _, innerSeen := Profile(g, c);
        assert g.CurrentFunction() == cur;
        assert seen + (innerSeen + rest.seen) == (seen + innerSeen) + rest.seen;
        seen' := seen + innerSeen;
    }
  }

  // ---------------------------------------------------------------------------
  // What the wrapper promises, stated on Called.

  /**
   * The outcome of a call is the function's own outcome, or exactly the exception
   * raised by one of its nested wrapped calls, passed through unchanged.
   */
  lemma {:induction false} OutcomeFrom(f: Fn, i: nat, current: string)
    requires i <= |f.body|
    ensures RunFrom(f, i, current).outcome == f.outcome ||
            exists k :: i <= k < |f.body| && f.body[k].Call? &&
                        Called(f.body[k].callee).outcome.Raised? &&
                        RunFrom(f, i, current).outcome == Called(f.body[k].callee).outcome
    decreases |f.body| - i
  {
    if i < |f.body| {
      match f.body[i]
      case Observe => OutcomeFrom(f, i + 1, current);
      case Rename(n) => OutcomeFrom(f, i + 1, n);
      case TryCall(_) => OutcomeFrom(f, i + 1, current);
      case Call(c) =>
        if !Called(c).outcome.Raised? {
          OutcomeFrom(f, i + 1, current);
        }
    }
  }

  /** `return func(*args, **kwargs)`: a body with no nested wrapped calls returns or raises exactly what the function does. */
  lemma PassesOutcomeThrough(f: Fn)
    requires forall k :: 0 <= k < |f.body| ==> !f.body[k].Call?
    ensures Called(f).outcome == f.outcome
  {
    OutcomeFrom(f, 0, f.qualname);
  }

  /** A body that only reads the slot sees the given name at every step. */
  lemma {:induction false} ObservesThroughout(f: Fn, i: nat, current: string)
    requires i <= |f.body|
    requires forall k :: i <= k < |f.body| ==> f.body[k] == Observe
    ensures RunFrom(f, i, current).seen == seq(|f.body| - i, _ => current)
    ensures RunFrom(f, i, current).outcome == f.outcome
    decreases |f.body| - i
  {
    if i < |f.body| {
      ObservesThroughout(f, i + 1, current);
    }
  }

  /** While the wrapped function runs, the current function is its qualname. */
  lemma SeesOwnQualname(f: Fn)
    requires forall k :: 0 <= k < |f.body| ==> f.body[k] == Observe
    ensures Called(f).seen == seq(|f.body|, _ => f.qualname)
    ensures Called(f).outcome == f.outcome
  {
    ObservesThroughout(f, 0, f.qualname);
  }

  /**
   * Nested wrappers unwind: an outer function that reads the slot, calls an inner
   * wrapped function that returns normally, and reads again, sees its own name,
   * then the inner one's, then its own again.
   */
  lemma NestedCallsUnwind(outer: Fn, inner: Fn)
    requires outer.body == [Observe, Call(inner), Observe]
    requires forall k :: 0 <= k < |inner.body| ==> inner.body[k] == Observe
    requires inner.outcome.Ok?
    ensures Called(outer).seen == [outer.qualname] + seq(|inner.body|, _ => inner.qualname) + [outer.qualname]
    ensures Called(outer).outcome == outer.outcome
  {
    SeesOwnQualname(inner);
    ObservesThroughout(outer, 2, outer.qualname);
    var q := outer.qualname;
    assert RunFrom(outer, 2, q).seen == [q];
    assert RunFrom(outer, 1, q).seen == Called(inner).seen + [q];
    assert RunFrom(outer, 0, q).seen == [q] + (Called(inner).seen + [q]);
  }

  /** An exception raised inside a nested wrapped call that the outer body does not catch ends the outer call with that same exception. */
  lemma NestedRaisePropagates(outer: Fn, inner: Fn)
    requires |outer.body| > 0 && outer.body[0] == Call(inner)
    requires forall k :: 0 <= k < |inner.body| ==> inner.body[k] == Observe
    requires inner.outcome.Raised?
    ensures Called(outer).outcome == inner.outcome
    ensures Called(outer).seen == seq(|inner.body|, _ => inner.qualname)
  {
    SeesOwnQualname(inner);
  }

  /**
   * An outer body that catches the exception of a nested wrapped call goes on:
   * the inner wrapper's `finally` has put the outer name back, so the next read
   * sees the outer qualname, and the outer call ends with its own outcome.
   */
  lemma CaughtRaiseResumes(outer: Fn, inner: Fn)
    requires outer.body == [TryCall(inner), Observe]
    requires forall k :: 0 <= k < |inner.body| ==> inner.body[k] == Observe
    requires inner.outcome.Raised?
    ensures Called(outer).seen == seq(|inner.body|, _ => inner.qualname) + [outer.qualname]
    ensures Called(outer).outcome == outer.outcome
  {
    SeesOwnQualname(inner);
    assert RunFrom(outer, 1, outer.qualname).seen == [outer.qualname];
  }

  // ---------------------------------------------------------------------------
  // Sessions.

  /** A `with session(name) as s:` block, with its own tracker. */
  class Session {
    const name: string
    const tracker: Ledger
    /** `_records`: the snapshot taken on exit. */
    var records: seq<CallRecord>

    constructor(name: string)
      ensures this.name == name && records == []
      ensures fresh(tracker) && tracker.records == [] && tracker.store.None?
    {
      this.name := name;
      tracker := new Ledger();
      records := [];
    }

    /** `__enter__`: activates with the session's tracker, then names the slot after the session. */
    method Enter(g: Globals)
      requires g.Valid()
      modifies g, g.openai, g.google, g.slot
      ensures g.Valid() && g.IsActive() && g.CurrentFunction() == name
      ensures g.globalTracker == old(g.globalTracker)
      ensures g.Activated(tracker)
    {
      g.Activate(Some(tracker));
      g.SetCurrentFunction(name);
    }

    /** `__exit__`: snapshots the tracker's records and deactivates; the slot keeps the session name. */
    method Exit(g: Globals)
      requires g.Valid()
      modifies this, g, g.openai, g.google
      ensures g.Valid() && !g.IsActive() && !g.openai.patched && !g.google.patched
      ensures records == tracker.records
      ensures g.slot.names == old(g.slot.names)
    {
      records := tracker.records;
      g.Deactivate();
    }

    /**
     * `cost`: `tracker.total_cost() or sum(r.cost_usd for r in _records)`. Before
     * exit the snapshot is empty and after it equals the tracker's records, so in
     * both cases this is the tracker's total cost.
     */
    function Cost(): (c: real)
      reads this, tracker
      ensures records == [] || records == tracker.records ==> c == SumCost(tracker.records)
    {
      if tracker.TotalCost() != 0.0 then tracker.TotalCost() else SumCost(records)
    }

    /** `tokens`: the same fallback over total tokens, equal to input plus output tokens of the tracker. */
    function Tokens(): (n: nat)
      reads this, tracker
      ensures records == [] || records == tracker.records ==>
                n == SumInput(tracker.records) + SumOutput(tracker.records)
    {
      if tracker.TotalTokens() != 0 then tracker.TotalTokens()
      else
        SumTokensSplit(records);
        SumTokens(records)
    }

    /** `calls`: the number of snapshotted records, so 0 until exit. */
    function Calls(): nat
      reads this
    {
      |records|
    }
  }

  /**
   * A session's whole life with no call inside the block: while open it costs
   * nothing and has no calls; after exit its calls are the records its tracker
   * received, none, and it still costs nothing.
   */
  method SessionLifecycle(g: Globals, name: string) returns (s: Session, openCost: real, openCalls: nat)
    requires g.Valid()
    modifies g, g.openai, g.google, g.slot
    ensures openCost == 0.0 && openCalls == 0
    ensures s.Calls() == |s.tracker.records| && s.Cost() == SumCost(s.tracker.records)
    ensures s.tracker.records == [] && s.Cost() == 0.0 && s.Calls() == 0
    ensures g.Valid() && !g.IsActive() && g.CurrentFunction() == name
  {
    s := new Session(name);
    s.Enter(g);
    openCost := s.Cost();
    openCalls := s.Calls();
    s.Exit(g);
  }

  // ---------------------------------------------------------------------------
  // Global initialisation.

  /** The database file `init(persist=True, persist_dir)` uses, as path segments. */
  function StorePath(persistDir: Option<string>, home: seq<string>): (p: seq<string>)
    ensures |p| >= 2 && p[|p| - 1] == "usage.db"
    ensures Truthy(persistDir) ==> p[..|p| - 1] == [persistDir.value]
    ensures !Truthy(persistDir) ==> p[..|p| - 1] == home + [".tokenspy"]
  {
    (if Truthy(persistDir) then [persistDir.value] else home + [".tokenspy"]) + ["usage.db"]
  }

  /**
   * `init(persist, persist_dir)`: a new global tracker, bound to the file at
   * StorePath when persisting, installed as the global tracker and activated.
   * `disk` is the file at that path.
   */
  method Init(g: Globals, persist: bool, persistDir: Option<string>, home: seq<string>, disk: Store)
    requires g.Valid()
    requires persist ==> disk.path == StorePath(persistDir, home)
    modifies g, g.openai, g.google, disk
    ensures g.Valid() && g.IsActive()
    ensures fresh(g.globalTracker) && g.globalTracker.records == []
    ensures persist ==> g.globalTracker.store == Some(disk) && disk.created && disk.rows == old(disk.rows)
    ensures !persist ==> g.globalTracker.store.None?
    ensures g.Activated(g.globalTracker)
  {
    var t: Ledger;
    if persist {
      t := new Ledger.Persistent(disk);
    } else {
      t := new Ledger();
    }
    g.SetGlobalTracker(t);
    g.Activate(Some(t));
  }
}
