/**
 * The tracker: an append-only, in-memory sequence of call records with derived
 * totals, optionally mirrored into a durable store. The store stands for the
 * SQLite file at one path: whether it exists yet and the rows it holds.
 */
module Tracker {
  import opened Results
  import opened Records

  /** A backing file at a fixed path. */
  class Store {
    const path: seq<string>
    var created: bool
    var rows: seq<CallRecord>

    /** A path where no file exists yet (its directory may or may not exist). */
    constructor Missing(path: seq<string>)
      ensures this.path == path && !created && rows == []
    {
      this.path := path;
      created := false;
      rows := [];
    }

    /** Every persisted record in insertion order; nothing when the file does not exist. */
    function LoadAll(): (rs: seq<CallRecord>)
      reads this
      ensures !created ==> rs == []
      ensures created ==> rs == rows
    {
      if created then rows else []
    }
  }

  /** The structured snapshot `Tracker.summary()` returns. */
  datatype UsageSummary = UsageSummary(
    totalCostUsd: real,
    totalTokens: nat,
    totalCalls: nat,
    calls: seq<CallRecord>,
    byFunction: map<string, real>,
    byModel: map<string, real>)

  /** For every key of the records, the summed cost of that key's records. */
  function CostBy<K(==,!new)>(rs: seq<CallRecord>, key: CallRecord -> K): (m: map<K, real>)
    ensures forall k :: k in m <==> exists i :: 0 <= i < |rs| && key(rs[i]) == k
    ensures forall k :: k in m ==> m[k] == SumCost(Where(rs, key, k))
  {
    KeysExactly(rs, key);
    map k | k in Keys(rs, key) :: SumCost(Where(rs, key, k))
  }

  class Ledger {
    var records: seq<CallRecord>
    const store: Option<Store>

    /** The objects `record` writes. */
    function Footprint(): set<object> {
      {this} + if store.Some? then {store.value} else {}
    }

    /** `Tracker()`: in memory only. */
    constructor()
      ensures records == [] && store == None
    {
      records := [];
      store := None;
    }

    /** `Tracker(persist_path=p)`: creates the file (and its directories) if missing, keeping its rows. */
    constructor Persistent(s: Store)
      modifies s
      ensures records == [] && store == Some(s)
      ensures s.created && s.rows == old(s.rows)
    {
      records := [];
      store := Some(s);
      s.created := true;
    }

    /** Appends one record; a bound store receives it too. */
    method Record(r: CallRecord)
      modifies Footprint()
      ensures records == old(records) + [r]
      ensures store.Some? ==> store.value.created && store.value.rows == old(store.value.rows) + [r]
    {
      records := records + [r];
      if store.Some? {
        store.value.created := true;
        store.value.rows := store.value.rows + [r];
      }
    }

    /** Clears the in-memory records only; a bound store keeps its rows. */
    method Reset()
      modifies this
      ensures records == []
    {
      records := [];
    }

    /** `load_from_db()`: the persisted records, or none when no file is bound or it does not exist. */
    method LoadFromStore() returns (rs: seq<CallRecord>)
      ensures store.None? ==> rs == []
      ensures store.Some? ==> rs == store.value.LoadAll()
    {
      if store.Some? {
        rs := store.value.LoadAll();
      } else {
        rs := [];
      }
    }

    function TotalCost(): (c: real)
      reads this
    {
      SumCost(records)
    }

    function TotalTokens(): (n: nat)
      reads this
      ensures n == SumInput(records) + SumOutput(records)
    {
      SumTokensSplit(records);
      SumTokens(records)
    }

    function TotalCalls(): (n: nat)
      reads this
    {
      |records|
    }

    function CostByFunction(): map<string, real>
      reads this
    {
      CostBy(records, FunctionKey)
    }

    function CostByModel(): map<string, real>
      reads this
    {
      CostBy(records, ModelKey)
    }

    /** All aggregates of one snapshot of the records. */
    function Summary(): (s: UsageSummary)
      reads this
      ensures s.calls == records && s.totalCalls == |s.calls| == |records|
      ensures s.totalTokens == SumInput(records) + SumOutput(records)
      ensures s.byFunction == CostBy(records, FunctionKey) && s.byModel == CostBy(records, ModelKey)
      ensures s.totalCostUsd == GroupCost(Keys(records, FunctionKey), records, FunctionKey)
      ensures s.totalCostUsd == GroupCost(Keys(records, ModelKey), records, ModelKey)
    {
      GroupsPartition(records, FunctionKey);
      GroupsPartition(records, ModelKey);
      UsageSummary(TotalCost(), TotalTokens(), TotalCalls(), records, CostByFunction(), CostByModel())
    }
  }

  /**
   * Five threads recording a hundred records each, run one after another: every
   * record lands, so the call count grows by exactly workers * perWorker.
   */
  method RecordFromWorkers(t: Ledger, r: CallRecord, workers: nat, perWorker: nat)
    modifies t.Footprint()
    ensures t.TotalCalls() == old(t.TotalCalls()) + workers * perWorker
    ensures t.records == old(t.records) + seq(workers * perWorker, _ => r)
  {
    var w := 0;
    while w < workers
      invariant 0 <= w <= workers
      invariant t.records == old(t.records) + seq(w * perWorker, _ => r)
    {
      var j := 0;
      while j < perWorker
        invariant 0 <= j <= perWorker
        invariant t.records == old(t.records) + seq(w * perWorker + j, _ => r)
      {
        t.Record(r);
        j := j + 1;
      }
      w := w + 1;
    }
  }

  /**
   * Write with one tracker, reopen the same file with a fresh tracker, load: the
   * record comes back.
   */
  method PersistAndReload(s: Store, r: CallRecord) returns (loaded: seq<CallRecord>)
    requires !s.created && s.rows == []
    modifies s
    ensures loaded == [r]
  {
    var t := new Ledger.Persistent(s);
    t.Record(r);
    var t2 := new Ledger.Persistent(s);
    loaded := t2.LoadFromStore();
  }
}
