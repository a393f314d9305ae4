/**
 * The usage record every provider hook builds and the tracker stores, the sums the
 * tracker and the reports take over a sequence of records, and grouping of records
 * by a key in the order a Python dict filled by `setdefault` would hold the keys.
 */
module Records {

  /** One intercepted provider call (`tokenspy.tracker.CallRecord`). */
  datatype CallRecord = CallRecord(
    functionName: string,
    callStack: seq<string>,
    model: string,
    provider: string,
    inputTokens: nat,
    outputTokens: nat,
    costUsd: real,
    durationMs: real)
  {
    /** `CallRecord.total_tokens`: input plus output tokens. */
    function TotalTokens(): nat {
      inputTokens + outputTokens
    }
  }

  /** Cost, input tokens and output tokens summed over some records. */
  datatype Usage = Usage(cost: real, inputTokens: nat, outputTokens: nat)

  // The grouping keys used by the reports and the optimizer.
  function FunctionKey(r: CallRecord): string { r.functionName }
  function ModelKey(r: CallRecord): string { r.model }
  function CallSiteKey(r: CallRecord): (string, string) { (r.functionName, r.model) }

  // ---------------------------------------------------------------------------
  // Sums, taken from the last record backwards so that appending one record adds
  // one term (Python's `sum` is left to right; over reals the order is immaterial).

  function SumCost(rs: seq<CallRecord>): real {
    if rs == [] then 0.0 else SumCost(rs[..|rs| - 1]) + rs[|rs| - 1].costUsd
  }

  function SumInput(rs: seq<CallRecord>): nat {
    if rs == [] then 0 else SumInput(rs[..|rs| - 1]) + rs[|rs| - 1].inputTokens
  }

  function SumOutput(rs: seq<CallRecord>): nat {
    if rs == [] then 0 else SumOutput(rs[..|rs| - 1]) + rs[|rs| - 1].outputTokens
  }

  /** Sum of `total_tokens` over the records. */
  function SumTokens(rs: seq<CallRecord>): nat {
    if rs == [] then 0 else SumTokens(rs[..|rs| - 1]) + rs[|rs| - 1].TotalTokens()
  }

  function UsageOf(rs: seq<CallRecord>): Usage {
    Usage(SumCost(rs), SumInput(rs), SumOutput(rs))
  }

  /** Appending one record adds exactly its own cost and tokens to every sum. */
  lemma SumsAppend(rs: seq<CallRecord>, r: CallRecord)
    ensures SumCost(rs + [r]) == SumCost(rs) + r.costUsd
    ensures SumInput(rs + [r]) == SumInput(rs) + r.inputTokens
    ensures SumOutput(rs + [r]) == SumOutput(rs) + r.outputTokens
    ensures SumTokens(rs + [r]) == SumTokens(rs) + r.TotalTokens()
  {
    assert (rs + [r])[..|rs|] == rs;
  }

  /** The cost of two batches of records is the sum of their costs. */
  lemma {:induction false} SumCostConcat(a: seq<CallRecord>, b: seq<CallRecord>)
    ensures SumCost(a + b) == SumCost(a) + SumCost(b)
  {
    if b != [] {
      SumCostConcat(a, b[..|b| - 1]);
      assert (a + b)[..|a + b| - 1] == a + b[..|b| - 1];
    } else {
      assert a + b == a;
    }
  }

  /** Total tokens are input tokens plus output tokens, summed separately. */
  lemma {:induction false} SumTokensSplit(rs: seq<CallRecord>)
    ensures SumTokens(rs) == SumInput(rs) + SumOutput(rs)
  {
    if rs != [] {
      SumTokensSplit(rs[..|rs| - 1]);
    }
  }

  /** With non-negative costs, every sum of costs is non-negative. */
  lemma {:induction false} SumCostNonNegative(rs: seq<CallRecord>)
    requires forall i :: 0 <= i < |rs| ==> rs[i].costUsd >= 0.0
    ensures SumCost(rs) >= 0.0
  {
    if rs != [] {
      SumCostNonNegative(rs[..|rs| - 1]);
    }
  }

  // ---------------------------------------------------------------------------
  // Grouping: `groups.setdefault(key(r), []).append(r)` for r in rs.

  /** The distinct keys of rs, in order of first occurrence (the dict's key order). */
  function Keys<K(==)>(rs: seq<CallRecord>, key: CallRecord -> K): seq<K> {
    if rs == [] then []
    else
      var ks := Keys(rs[..|rs| - 1], key);
      if key(rs[|rs| - 1]) in ks then ks else ks + [key(rs[|rs| - 1])]
  }

  /** The records of rs whose key is k, in their original order (the dict's list for k). */
  function Where<K(==)>(rs: seq<CallRecord>, key: CallRecord -> K, k: K): seq<CallRecord> {
    if rs == [] then []
    else
      var w := Where(rs[..|rs| - 1], key, k);
      if key(rs[|rs| - 1]) == k then w + [rs[|rs| - 1]] else w
  }

  /** Each key occurs once in Keys, and Keys holds exactly the keys of the records. */
  lemma {:induction false} KeysExactly<K>(rs: seq<CallRecord>, key: CallRecord -> K)
    ensures forall i, j :: 0 <= i < j < |Keys(rs, key)| ==> Keys(rs, key)[i] != Keys(rs, key)[j]
    ensures forall k :: k in Keys(rs, key) <==> exists i :: 0 <= i < |rs| && key(rs[i]) == k
  {
    if rs != [] {
      var p := rs[..|rs| - 1];
      KeysExactly(p, key);
      forall k ensures k in Keys(rs, key) <==> exists i :: 0 <= i < |rs| && key(rs[i]) == k {
        if k in Keys(p, key) {
          var i :| 0 <= i < |p| && key(p[i]) == k;
          assert key(rs[i]) == k;
        }
      }
    }
  }

  /** Where(rs, key, k) holds exactly the records of rs with key k. */
  lemma {:induction false} WhereExactly<K>(rs: seq<CallRecord>, key: CallRecord -> K, k: K)
    ensures forall x :: x in Where(rs, key, k) ==> key(x) == k
    ensures forall i :: 0 <= i < |rs| && key(rs[i]) == k ==> rs[i] in Where(rs, key, k)
    ensures Where(rs, key, k) == [] <==> k !in Keys(rs, key)
  {
    if rs != [] {
      var p := rs[..|rs| - 1];
      WhereExactly(p, key, k);
      forall i | 0 <= i < |rs| && key(rs[i]) == k ensures rs[i] in Where(rs, key, k) {
        if i < |p| {
          assert rs[i] == p[i];
        }
      }
    }
  }

  /** Each record with key k occurs in Where(rs, key, k) as often as in rs, and no other record does. */
  lemma {:induction false} WhereCount<K>(rs: seq<CallRecord>, key: CallRecord -> K, k: K)
    ensures forall x :: multiset(Where(rs, key, k))[x] == if key(x) == k then multiset(rs)[x] else 0
  {
    if rs != [] {
      var p, r := rs[..|rs| - 1], rs[|rs| - 1];
      WhereCount(p, key, k);
      assert rs == p + [r];
      assert multiset(rs) == multiset(p) + multiset{r};
    }
  }

  /** Summing the cost of each key's group, over the keys ks. */
  function GroupCost<K(==)>(ks: seq<K>, rs: seq<CallRecord>, key: CallRecord -> K): real {
    if ks == [] then 0.0
    else GroupCost(ks[..|ks| - 1], rs, key) + SumCost(Where(rs, key, ks[|ks| - 1]))
  }

  /** Counting the records of each key's group, over the keys ks. */
  function GroupSize<K(==)>(ks: seq<K>, rs: seq<CallRecord>, key: CallRecord -> K): nat {
    if ks == [] then 0
    else GroupSize(ks[..|ks| - 1], rs, key) + |Where(rs, key, ks[|ks| - 1])|
  }

  lemma {:induction false} GroupsAppendRecord<K>(ks: seq<K>, rs: seq<CallRecord>, key: CallRecord -> K, r: CallRecord)
    requires forall i, j :: 0 <= i < j < |ks| ==> ks[i] != ks[j]
    ensures GroupCost(ks, rs + [r], key) == GroupCost(ks, rs, key) + (if key(r) in ks then r.costUsd else 0.0)
    ensures GroupSize(ks, rs + [r], key) == GroupSize(ks, rs, key) + (if key(r) in ks then 1 else 0)
  {
    assert (rs + [r])[..|rs|] == rs;
    if ks != [] {
      var q := ks[..|ks| - 1];
      GroupsAppendRecord(q, rs, key, r);
      SumsAppend(Where(rs, key, ks[|ks| - 1]), r);
      assert key(r) in ks <==> key(r) in q || key(r) == ks[|ks| - 1];
    }
  }

  /**
   * Every record falls in exactly one group: the group costs add up to the total
   * cost and the group sizes add up to the number of records.
   */
  lemma {:induction false} GroupsPartition<K>(rs: seq<CallRecord>, key: CallRecord -> K)
    ensures GroupCost(Keys(rs, key), rs, key) == SumCost(rs)
    ensures GroupSize(Keys(rs, key), rs, key) == |rs|
  {
    if rs != [] {
      var p, r := rs[..|rs| - 1], rs[|rs| - 1];
      assert rs == p + [r];
      var ks := Keys(p, key);
      GroupsPartition(p, key);
      KeysExactly(p, key);
      GroupsAppendRecord(ks, p, key, r);
      if key(r) !in ks {
        var ks' := ks + [key(r)];
        assert ks'[..|ks'| - 1] == ks;
        WhereExactly(p, key, key(r));
        assert Where(rs, key, key(r)) == [r];
        assert SumCost([r]) == r.costUsd by { SumsAppend([], r); }
      }
    }
  }
}
