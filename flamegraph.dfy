/**
 * The aggregation behind the cost reports: records grouped by function (and, inside
 * each function, by model), each group's summed cost ranked from most to least
 * expensive, each share of the total turned into a percentage, a text bar and a
 * colour. What the text and HTML reports show is modelled as structured lines; the
 * number formatting, HTML escaping and document markup around them are not.
 */
module Flamegraph {
  import opened Records
  import opened Sorting
  import opened Tracker

  // ---------------------------------------------------------------------------
  // Helpers: `int(...)`, `_bar`, `_cost_color`.

  /** Python's `int(x)` on a float: truncation toward zero. */
  function Trunc(x: real): (n: int)
    ensures x >= 0.0 ==> 0 <= n && n as real <= x < n as real + 1.0
    ensures x < 0.0 ==> n <= 0 && n as real - 1.0 < x <= n as real
  {
    if x >= 0.0 then x.Floor else -((-x).Floor)
  }

  /** `c * n`: n copies of c, and none when n is zero or negative. */
  function Repeat(c: char, n: int): (s: string)
    ensures |s| == if n > 0 then n else 0
    ensures forall i :: 0 <= i < |s| ==> s[i] == c
  {
    seq(if n > 0 then n else 0, _ => c)
  }

  /** The number of filled cells of a bar of `width` cells at `pct` percent. */
  function Filled(pct: real, width: int): int {
    Trunc(pct / 100.0 * width as real)
  }

  /** `_bar(pct, width)`: filled cells, then empty cells up to the width. */
  function Bar(pct: real, width: int): (b: string)
    ensures b == Repeat('█', Filled(pct, width)) + Repeat('░', width - Filled(pct, width))
  {
    var filled := Filled(pct, width);
    Repeat('█', filled) + Repeat('░', width - filled)
  }

  /** For a percentage between 0 and 100, floor(pct/100 * width) filled cells, at most width. */
  lemma FilledBounds(pct: real, width: nat)
    requires 0.0 <= pct <= 100.0
    ensures var f := Filled(pct, width);
            0 <= f <= width && f as real <= pct * width as real / 100.0 < f as real + 1.0
  {
    var x := pct / 100.0 * width as real;
    ScaleAtMost(pct / 100.0, 1.0, width as real);
    assert x <= width as real;
    assert pct * width as real / 100.0 == x;
  }

  /**
   * For a percentage between 0 and 100 the bar is exactly `width` cells, of which
   * the first floor(pct/100 * width) are filled and the rest empty.
   */
  lemma BarShape(pct: real, width: nat)
    requires 0.0 <= pct <= 100.0
    ensures var f := Filled(pct, width);
            0 <= f <= width &&
            f as real <= pct * width as real / 100.0 < f as real + 1.0 &&
            |Bar(pct, width)| == width &&
            (forall i :: 0 <= i < f ==> Bar(pct, width)[i] == '█') &&
            (forall i :: f <= i < width ==> Bar(pct, width)[i] == '░')
  {
    FilledBounds(pct, width);
    var f := Filled(pct, width);
    var filled, empty := Repeat('█', f), Repeat('░', width - f);
    assert Bar(pct, width) == filled + empty;
    assert |filled| == f && |empty| == width - f;
  }

  /** Scaling by a non-negative factor keeps the order. */
  lemma ScaleAtMost(a: real, b: real, c: real)
    requires 0.0 <= a <= b && 0.0 <= c
    ensures 0.0 <= a * c <= b * c
  {
  }

  const Red := "#e74c3c"
  const Orange := "#e67e22"
  const Yellow := "#f1c40f"
  const Green := "#2ecc71"

  /** `_cost_color(fraction)`: red above a half, orange above a quarter, yellow above a tenth, else green. */
  function CostColor(fraction: real): (c: string)
    ensures c == Red <==> fraction > 0.5
    ensures c == Orange <==> 0.25 < fraction <= 0.5
    ensures c == Yellow <==> 0.1 < fraction <= 0.25
    ensures c == Green <==> fraction <= 0.1
  {
    if fraction > 0.5 then Red
    else if fraction > 0.25 then Orange
    else if fraction > 0.1 then Yellow
    else Green
  }

  /** How hot a colour is, from green (0) to red (3). */
  function Heat(c: string): nat {
    if c == Red then 3 else if c == Orange then 2 else if c == Yellow then 1 else 0
  }

  /** A larger share of the cost is never drawn in a cooler colour. */
  lemma ColorMonotone(f: real, g: real)
    requires f <= g
    ensures Heat(CostColor(f)) <= Heat(CostColor(g))
  {
  }

  /** `fn_cost / total_cost * 100 if total_cost > 0 else 0` */
  function Pct(cost: real, total: real): (p: real)
    ensures total <= 0.0 ==> p == 0.0
    ensures 0.0 <= cost <= total && total > 0.0 ==> 0.0 <= p <= 100.0
    ensures total > 0.0 ==> p * total == cost * 100.0
  {
    if total > 0.0 then cost / total * 100.0 else 0.0
  }

  /** `cost / total_cost if total_cost > 0 else 0`: the share as a fraction. */
  function Fraction(cost: real, total: real): (f: real)
    ensures total <= 0.0 ==> f == 0.0
    ensures 0.0 <= cost <= total && total > 0.0 ==> 0.0 <= f <= 1.0
    ensures total > 0.0 ==> f * total == cost
  {
    if total > 0.0 then cost / total else 0.0
  }

  /** `"call" + ("s" if total_calls != 1 else "")` */
  function CallWord(n: nat): (w: string)
    ensures w == "call" <==> n == 1
    ensures w == "call" || w == "calls"
  {
    "call" + if n != 1 then "s" else ""
  }

  // ---------------------------------------------------------------------------
  // Grouping loops and ranking.

  /** One group's key and the usage summed over its records. */
  datatype Row = Row(key: string, usage: Usage)

  /** `key=lambda x: cost(x), reverse=True`: a may stand before b when it costs at least as much. */
  function CostFirst(a: Row, b: Row): bool {
    a.usage.cost >= b.usage.cost
  }

  lemma CostFirstTotal()
    ensures Total(CostFirst)
  {
  }

  lemma CostFirstTransitive()
    ensures Transitive(CostFirst)
  {
  }

  function KeysOf(rows: seq<Row>): (ks: seq<string>)
    ensures |ks| == |rows| && forall i :: 0 <= i < |rows| ==> ks[i] == rows[i].key
  {
    seq(|rows|, i requires 0 <= i < |rows| => rows[i].key)
  }

  /** The summed cost over some rows. */
  function RowCost(rows: seq<Row>): real {
    if rows == [] then 0.0 else rows[0].usage.cost + RowCost(rows[1..])
  }

  /** The rows of the keys ks: each key with the usage of its records in rs. */
  function Usages(ks: seq<string>, rs: seq<CallRecord>, key: CallRecord -> string): (u: seq<Row>)
    ensures KeysOf(u) == ks
  {
    seq(|ks|, i requires 0 <= i < |ks| => Row(ks[i], UsageOf(Where(rs, key, ks[i]))))
  }

  /** `sorted(rows, key=cost, reverse=True)`: a stable sort, most expensive first. */
  function ByCost(rows: seq<Row>): (r: seq<Row>)
    ensures Sorted(r, CostFirst) && multiset(r) == multiset(rows) && |r| == |rows|
  {
    CostFirstTotal();
    SortBy(rows, CostFirst)
  }

  /** Every group of rs under key, most expensive first, ties in order of first occurrence. */
  function Ranking(rs: seq<CallRecord>, key: CallRecord -> string): seq<Row> {
    ByCost(Usages(Keys(rs, key), rs, key))
  }

  /** The ranking is stable: rows of equal cost keep their order. */
  lemma ByCostStable(rows: seq<Row>, y: Row)
    ensures Tied(ByCost(rows), y, CostFirst) == Tied(rows, y, CostFirst)
  {
    CostFirstTotal();
    CostFirstTransitive();
    SortByStable(rows, CostFirst, y);
  }

  /** Groups that cost the same are ranked in the order their keys first occur in rs. */
  lemma RankingTies(rs: seq<CallRecord>, key: CallRecord -> string, y: Row)
    ensures Tied(Ranking(rs, key), y, CostFirst) == Tied(Usages(Keys(rs, key), rs, key), y, CostFirst)
  {
    ByCostStable(Usages(Keys(rs, key), rs, key), y);
  }

  /**
   * `by_fn.setdefault(key(r), []).append(r)` for every record: the keys in order of
   * first occurrence, each with its records in their original order.
   */
  method GroupBy<K(==)>(rs: seq<CallRecord>, key: CallRecord -> K) returns (order: seq<K>, groups: map<K, seq<CallRecord>>)
    ensures order == Keys(rs, key)
    ensures forall k :: k in groups <==> k in order
    ensures forall k :: k in groups ==> groups[k] == Where(rs, key, k)
  {
    order, groups := [], map[];
    for i := 0 to |rs|
      invariant order == Keys(rs[..i], key)
      invariant forall k :: k in groups <==> k in order
      invariant forall k :: k in groups ==> groups[k] == Where(rs[..i], key, k)
    {
      var r := rs[i];
      assert rs[..i + 1][..i] == rs[..i] && rs[..i + 1][i] == r;
      if key(r) !in groups {
        WhereExactly(rs[..i], key, key(r));
        order := order + [key(r)];
        groups := groups[key(r) := [r]];
      } else {
        groups := groups[key(r) := groups[key(r)] + [r]];
      }
    }
    assert rs[..|rs|] == rs;
  }

  /**
   * `agg[key(r)] = agg.get(key(r), zero) + usage(r)` for every record: the keys in
   * order of first occurrence, each with the usage summed over its records.
   */
  method Accumulate(rs: seq<CallRecord>, key: CallRecord -> string) returns (order: seq<string>, agg: map<string, Usage>)
    ensures order == Keys(rs, key)
    ensures forall k :: k in agg <==> k in order
    ensures forall k :: k in agg ==> agg[k] == UsageOf(Where(rs, key, k))
  {
    order, agg := [], map[];
    for i := 0 to |rs|
      invariant order == Keys(rs[..i], key)
      invariant forall k :: k in agg <==> k in order
      invariant forall k :: k in agg ==> agg[k] == UsageOf(Where(rs[..i], key, k))
    {
      var r := rs[i];
      assert rs[..i + 1][..i] == rs[..i] && rs[..i + 1][i] == r;
      SumsAppend(Where(rs[..i], key, key(r)), r);
      var prev := if key(r) in agg then agg[key(r)] else Usage(0.0, 0, 0);
      if key(r) !in agg {
        WhereExactly(rs[..i], key, key(r));
        order := order + [key(r)];
      }
      agg := agg[key(r) := Usage(prev.cost + r.costUsd, prev.inputTokens + r.inputTokens, prev.outputTokens + r.outputTokens)];
    }
    assert rs[..|rs|] == rs;
  }

  /** `{k: sum(...) for k, recs in groups.items()}`: each key with the usage of its list. */
  function Totals(ks: seq<string>, groups: map<string, seq<CallRecord>>): (u: seq<Row>)
    requires forall k :: k in ks ==> k in groups
    ensures |u| == |ks|
  {
    seq(|ks|, i requires 0 <= i < |ks| => Row(ks[i], UsageOf(groups[ks[i]])))
  }

  /** `agg.items()`: each key with its accumulated usage. */
  function Entries(ks: seq<string>, agg: map<string, Usage>): (u: seq<Row>)
    requires forall k :: k in ks ==> k in agg
    ensures |u| == |ks|
  {
    seq(|ks|, i requires 0 <= i < |ks| => Row(ks[i], agg[ks[i]]))
  }

  lemma KeysOfCons(h: Row, t: seq<Row>)
    ensures KeysOf([h] + t) == [h.key] + KeysOf(t)
  {
  }

  lemma {:induction false} InsertKeys(x: Row, s: seq<Row>)
    requires Total(CostFirst) && Sorted(s, CostFirst)
    ensures multiset(KeysOf(Insert(x, s, CostFirst))) == multiset(KeysOf(s)) + multiset{x.key}
  {
    if s != [] {
      assert s == [s[0]] + s[1..];
      KeysOfCons(s[0], s[1..]);
      if CostFirst(x, s[0]) {
        KeysOfCons(x, s);
      } else {
        InsertKeys(x, s[1..]);
        KeysOfCons(s[0], Insert(x, s[1..], CostFirst));
      }
    }
  }

  lemma {:induction false} InsertCost(x: Row, s: seq<Row>)
    requires Total(CostFirst) && Sorted(s, CostFirst)
    ensures RowCost(Insert(x, s, CostFirst)) == x.usage.cost + RowCost(s)
  {
    var r := Insert(x, s, CostFirst);
    if s == [] {
      assert r == [x];
    } else if CostFirst(x, s[0]) {
      assert r == [x] + s && r[1..] == s;
    } else {
      InsertCost(x, s[1..]);
      assert r[1..] == Insert(x, s[1..], CostFirst);
    }
  }

  /** `ByCost` unfolded once: the head inserted into the ranked tail. */
  lemma ByCostCons(s: seq<Row>)
    requires s != []
    ensures Total(CostFirst) && Sorted(ByCost(s[1..]), CostFirst)
    ensures ByCost(s) == Insert(s[0], ByCost(s[1..]), CostFirst)
  {
    CostFirstTotal();
  }

  /** Ranking moves rows, never loses or duplicates them: the same keys. */
  lemma {:induction false} SortByKeys(s: seq<Row>)
    ensures multiset(KeysOf(ByCost(s))) == multiset(KeysOf(s))
  {
    if s != [] {
      SortByKeys(s[1..]);
      ByCostCons(s);
      InsertKeys(s[0], ByCost(s[1..]));
      assert s == [s[0]] + s[1..];
      KeysOfCons(s[0], s[1..]);
    }
  }

  /** Ranking never changes the summed cost. */
  lemma {:induction false} SortByCost(s: seq<Row>)
    ensures RowCost(ByCost(s)) == RowCost(s)
  {
    if s != [] {
      SortByCost(s[1..]);
      ByCostCons(s);
      InsertCost(s[0], ByCost(s[1..]));
      assert s == [s[0]] + s[1..];
    }
  }

  /** `GroupCost` taken from the front. */
  lemma {:induction false} GroupCostCons(k: string, ks: seq<string>, rs: seq<CallRecord>, key: CallRecord -> string)
    ensures GroupCost([k] + ks, rs, key) == SumCost(Where(rs, key, k)) + GroupCost(ks, rs, key)
  {
    if ks != [] {
      GroupCostCons(k, ks[..|ks| - 1], rs, key);
      assert ([k] + ks)[..|[k] + ks| - 1] == [k] + ks[..|ks| - 1];
    } else {
      assert ([k] + ks)[..0] == [];
    }
  }

  lemma {:induction false} UsagesCost(ks: seq<string>, rs: seq<CallRecord>, key: CallRecord -> string)
    ensures RowCost(Usages(ks, rs, key)) == GroupCost(ks, rs, key)
  {
    if ks != [] {
      UsagesCost(ks[1..], rs, key);
      assert Usages(ks, rs, key)[1..] == Usages(ks[1..], rs, key);
      GroupCostCons(ks[0], ks[1..], rs, key);
      assert ks == [ks[0]] + ks[1..];
    }
  }

  /**
   * The ranked groups are the groups of rs under key, each once (the keys are a
   * permutation of the keys of rs), each with the usage of exactly its records, in
   * non-increasing order of cost; and their costs add up to the total cost.
   */
  lemma RankingRows(rs: seq<CallRecord>, key: CallRecord -> string)
    ensures var r := Ranking(rs, key);
            |r| == |Keys(rs, key)| &&
            multiset(KeysOf(r)) == multiset(Keys(rs, key)) &&
            (forall i :: 0 <= i < |r| ==> r[i].usage == UsageOf(Where(rs, key, r[i].key))) &&
            (forall i, j :: 0 <= i < j < |r| ==> r[i].usage.cost >= r[j].usage.cost) &&
            RowCost(r) == SumCost(rs)
  {
    CostFirstTransitive();
    var u := Usages(Keys(rs, key), rs, key);
    var r := Ranking(rs, key);
    SortByKeys(u);
    SortByCost(u);
    SortedAllPairs(r, CostFirst);
    forall i | 0 <= i < |r| ensures r[i].usage == UsageOf(Where(rs, key, r[i].key)) {
      assert r[i] in multiset(r);
      var m :| 0 <= m < |u| && u[m] == r[i];
    }
    UsagesCost(Keys(rs, key), rs, key);
    GroupsPartition(rs, key);
  }

  /** With non-negative costs, a group costs between nothing and the total. */
  lemma {:induction false} WhereCostBounds(rs: seq<CallRecord>, key: CallRecord -> string, k: string)
    requires forall i :: 0 <= i < |rs| ==> rs[i].costUsd >= 0.0
    ensures 0.0 <= SumCost(Where(rs, key, k)) <= SumCost(rs)
    ensures forall i :: 0 <= i < |Where(rs, key, k)| ==> Where(rs, key, k)[i].costUsd >= 0.0
  {
    if rs != [] {
      WhereCostBounds(rs[..|rs| - 1], key, k);
      var w := Where(rs[..|rs| - 1], key, k);
      if key(rs[|rs| - 1]) == k {
        SumsAppend(w, rs[|rs| - 1]);
      }
    }
  }

  // ---------------------------------------------------------------------------
  // `render_text`

  const BarWidth := 16
  const NoCallsText := "tokenspy: no LLM calls recorded.\n"

  /** One `└─ model` line: its cost, tokens, share of the total and bar. */
  datatype ModelLine = ModelLine(model: string, cost: real, tokens: nat, pct: real, bar: string)

  /** One function line and its per-model breakdown. */
  datatype FnLine = FnLine(name: string, cost: real, pct: real, bar: string, models: seq<ModelLine>)

  /** The text report: the sentinel for no records, or the header figures and the lines. */
  datatype TextReport =
    | EmptyText(text: string)
    | Text(totalCost: real, totalTokens: nat, totalCalls: nat, callWord: string, lines: seq<FnLine>)

  function ModelLineOf(row: Row, total: real): ModelLine {
    var pct := Pct(row.usage.cost, total);
    ModelLine(row.key, row.usage.cost, row.usage.inputTokens + row.usage.outputTokens, pct, Bar(pct, BarWidth))
  }

  function ModelLines(rows: seq<Row>, total: real): (ls: seq<ModelLine>)
    ensures |ls| == |rows| && forall j :: 0 <= j < |rows| ==> ls[j] == ModelLineOf(rows[j], total)
  {
    seq(|rows|, j requires 0 <= j < |rows| => ModelLineOf(rows[j], total))
  }

  function FnLineOf(row: Row, rs: seq<CallRecord>, total: real): FnLine {
    var pct := Pct(row.usage.cost, total);
    FnLine(row.key, row.usage.cost, pct, Bar(pct, BarWidth),
           ModelLines(Ranking(Where(rs, FunctionKey, row.key), ModelKey), total))
  }

  function FnLines(rows: seq<Row>, rs: seq<CallRecord>, total: real): (ls: seq<FnLine>)
    ensures |ls| == |rows| && forall i :: 0 <= i < |rows| ==> ls[i] == FnLineOf(rows[i], rs, total)
  {
    seq(|rows|, i requires 0 <= i < |rows| => FnLineOf(rows[i], rs, total))
  }

  function FnNames(ls: seq<FnLine>): (ns: seq<string>)
    ensures |ns| == |ls| && forall i :: 0 <= i < |ls| ==> ns[i] == ls[i].name
  {
    seq(|ls|, i requires 0 <= i < |ls| => ls[i].name)
  }

  /** What `render_text` reports for the records rs. */
  function TextReportOf(rs: seq<CallRecord>): TextReport {
    if rs == [] then EmptyText(NoCallsText)
    else
      var total := SumCost(rs);
      Text(total, SumTokens(rs), |rs|, CallWord(|rs|), FnLines(Ranking(rs, FunctionKey), rs, total))
  }

  /** The rows a finished `GroupBy` yields are the spec's rows. */
  lemma TotalsAreUsages(rs: seq<CallRecord>, key: CallRecord -> string, order: seq<string>, groups: map<string, seq<CallRecord>>)
    requires order == Keys(rs, key)
    requires forall k :: k in groups <==> k in order
    requires forall k :: k in groups ==> groups[k] == Where(rs, key, k)
    ensures Totals(order, groups) == Usages(Keys(rs, key), rs, key)
  {
  }

  /** The rows a finished `Accumulate` yields are the spec's rows. */
  lemma EntriesAreUsages(rs: seq<CallRecord>, key: CallRecord -> string, order: seq<string>, agg: map<string, Usage>)
    requires order == Keys(rs, key)
    requires forall k :: k in agg <==> k in order
    requires forall k :: k in agg ==> agg[k] == UsageOf(Where(rs, key, k))
    ensures Entries(order, agg) == Usages(Keys(rs, key), rs, key)
  {
  }

  /** A ranked row's key is one of the keys the rows came from. */
  lemma RankedKey(u: seq<Row>, i: nat)
    requires i < |u|
    ensures ByCost(u)[i].key in KeysOf(u)
  {
    var r := ByCost(u);
    assert r[i] in multiset(r);
    var m :| 0 <= m < |u| && u[m] == r[i];
    assert KeysOf(u)[m] == r[i].key;
  }

  /** The per-model breakdown of one function's records, as `render_text`'s inner loops build it. */
  method ModelBreakdown(recs: seq<CallRecord>, total: real) returns (ls: seq<ModelLine>)
    ensures ls == ModelLines(Ranking(recs, ModelKey), total)
  {
    var modelOrder, modelCosts := Accumulate(recs, ModelKey);
    EntriesAreUsages(recs, ModelKey, modelOrder, modelCosts);
    var sorted := ByCost(Entries(modelOrder, modelCosts));
    ls := [];
    for j := 0 to |sorted|
      invariant |ls| == j
      invariant forall m :: 0 <= m < j ==> ls[m] == ModelLineOf(sorted[m], total)
    {
      var mc := sorted[j].usage.cost;
      var mPct := Pct(mc, total);
      ls := ls + [ModelLine(sorted[j].key, mc, sorted[j].usage.inputTokens + sorted[j].usage.outputTokens,
                            mPct, Bar(mPct, BarWidth))];
    }
  }

  /** Group the records by function name and rank the groups, most expensive first. */
  method RankFunctions(records: seq<CallRecord>) returns (sortedFns: seq<Row>, byFn: map<string, seq<CallRecord>>)
    ensures sortedFns == Ranking(records, FunctionKey)
    ensures forall k :: k in byFn <==> k in Keys(records, FunctionKey)
    ensures forall k :: k in byFn ==> byFn[k] == Where(records, FunctionKey, k)
  {
    var fnOrder;
    fnOrder, byFn := GroupBy(records, FunctionKey);
    TotalsAreUsages(records, FunctionKey, fnOrder, byFn);
    sortedFns := ByCost(Totals(fnOrder, byFn));
  }

  /** The function lines, in ranked order, as `render_text`'s outer loop builds them. */
  method FunctionLines(records: seq<CallRecord>, total: real) returns (lines: seq<FnLine>)
    ensures lines == FnLines(Ranking(records, FunctionKey), records, total)
  {
    var sortedFns, byFn := RankFunctions(records);
    forall i | 0 <= i < |sortedFns|
      ensures sortedFns[i].key in byFn
    {
      RankedKey(Usages(Keys(records, FunctionKey), records, FunctionKey), i);
    }
    lines := LinesOf(sortedFns, byFn, records, total);
  }

  /** The outer loop of `render_text` over functions already ranked, each with its own records. */
  method LinesOf(sortedFns: seq<Row>, byFn: map<string, seq<CallRecord>>, records: seq<CallRecord>, total: real)
    returns (lines: seq<FnLine>)
    requires forall i :: 0 <= i < |sortedFns| ==> sortedFns[i].key in byFn
    requires forall k :: k in byFn ==> byFn[k] == Where(records, FunctionKey, k)
    ensures lines == FnLines(sortedFns, records, total)
  {
    lines := [];
    for i := 0 to |sortedFns|
      invariant |lines| == i
      invariant forall j :: 0 <= j < i ==> lines[j] == FnLineOf(sortedFns[j], records, total)
    {
      var fn := sortedFns[i].key;
      var fnCost := sortedFns[i].usage.cost;
      var pct := Pct(fnCost, total);
      var models := ModelBreakdown(byFn[fn], total);
      lines := lines + [FnLine(fn, fnCost, pct, Bar(pct, BarWidth), models)];
    }
  }

  /** `render_text(tracker)` */
  method RenderText(t: Ledger) returns (r: TextReport)
    ensures r == TextReportOf(t.records)
  {
    var records := t.records;
    if records == [] {
      return EmptyText(NoCallsText);
    }
    var total := t.TotalCost();
    var totalTokens := t.TotalTokens();
    var totalCalls := t.TotalCalls();
    SumTokensSplit(records);
    var lines := FunctionLines(records, total);
    r := Text(total, totalTokens, totalCalls, CallWord(totalCalls), lines);
  }

  /**
   * The text report: the sentinel exactly when there are no records; otherwise
   * the ledger's totals, "call" only for a single call, and one line per distinct
   * function (the names are a permutation of the functions), most expensive
   * first, each with the cost of exactly its records.
   */
  lemma TextReportFacts(rs: seq<CallRecord>)
    ensures TextReportOf(rs).EmptyText? <==> rs == []
    ensures rs == [] ==> TextReportOf(rs).text == "tokenspy: no LLM calls recorded.\n"
    ensures rs != [] ==>
            var r := TextReportOf(rs);
            r.totalCost == SumCost(rs) && r.totalTokens == SumInput(rs) + SumOutput(rs) &&
            r.totalCalls == |rs| && (r.callWord == "call" <==> |rs| == 1) &&
            multiset(FnNames(r.lines)) == multiset(Keys(rs, FunctionKey)) &&
            (forall i, j :: 0 <= i < j < |r.lines| ==> r.lines[i].cost >= r.lines[j].cost) &&
            (forall i :: 0 <= i < |r.lines| ==> r.lines[i].cost == SumCost(Where(rs, FunctionKey, r.lines[i].name)))
  {
    SumTokensSplit(rs);
    if rs != [] {
      RankingRows(rs, FunctionKey);
      assert FnNames(TextReportOf(rs).lines) == KeysOf(Ranking(rs, FunctionKey));
    }
  }

  /** The function lines' costs add up to the total. */
  lemma TextLinesCoverTotal(rs: seq<CallRecord>)
    requires rs != []
    ensures var ls := TextReportOf(rs).lines;
            |ls| == |Ranking(rs, FunctionKey)| &&
            (forall i :: 0 <= i < |ls| ==> ls[i].cost == Ranking(rs, FunctionKey)[i].usage.cost) &&
            RowCost(Ranking(rs, FunctionKey)) == SumCost(rs)
  {
    RankingRows(rs, FunctionKey);
  }

  /**
   * The breakdown under function f: one line per distinct model among f's records
   * (a permutation of them), most expensive first, each with the cost and the
   * input plus output tokens of exactly f's records for that model; and the model
   * costs add up to f's cost.
   */
  lemma ModelBreakdownFacts(rs: seq<CallRecord>, f: string, total: real)
    ensures var w := Where(rs, FunctionKey, f);
            var ms := Ranking(w, ModelKey);
            var ls := ModelLines(ms, total);
            multiset(KeysOf(ms)) == multiset(Keys(w, ModelKey)) &&
            RowCost(ms) == SumCost(w) &&
            (forall i, j :: 0 <= i < j < |ls| ==> ls[i].cost >= ls[j].cost) &&
            forall j :: 0 <= j < |ls| ==>
              ls[j].model == ms[j].key &&
              ls[j].cost == SumCost(Where(w, ModelKey, ms[j].key)) &&
              ls[j].tokens == SumTokens(Where(w, ModelKey, ms[j].key))
  {
    var w := Where(rs, FunctionKey, f);
    RankingRows(w, ModelKey);
    var ms := Ranking(w, ModelKey);
    forall j | 0 <= j < |ms| ensures ModelLines(ms, total)[j].tokens == SumTokens(Where(w, ModelKey, ms[j].key)) {
      SumTokensSplit(Where(w, ModelKey, ms[j].key));
    }
  }

  /**
   * With non-negative costs every percentage in the text report is between 0 and
   * 100 and every bar is exactly 16 cells wide.
   */
  lemma TextShares(rs: seq<CallRecord>)
    requires rs != []
    requires forall i :: 0 <= i < |rs| ==> rs[i].costUsd >= 0.0
    ensures var r := TextReportOf(rs);
            forall i :: 0 <= i < |r.lines| ==>
              0.0 <= r.lines[i].pct <= 100.0 && |r.lines[i].bar| == BarWidth &&
              forall j :: 0 <= j < |r.lines[i].models| ==>
                0.0 <= r.lines[i].models[j].pct <= 100.0 && |r.lines[i].models[j].bar| == BarWidth
  {
    var total := SumCost(rs);
    var fns := Ranking(rs, FunctionKey);
    var ls := FnLines(fns, rs, total);
    RankingRows(rs, FunctionKey);
    forall i | 0 <= i < |ls| ensures
              0.0 <= ls[i].pct <= 100.0 && |ls[i].bar| == BarWidth &&
              forall j :: 0 <= j < |ls[i].models| ==>
                0.0 <= ls[i].models[j].pct <= 100.0 && |ls[i].models[j].bar| == BarWidth
    {
      var w := Where(rs, FunctionKey, fns[i].key);
      WhereCostBounds(rs, FunctionKey, fns[i].key);
      BarShape(ls[i].pct, BarWidth);
      ModelShares(w, total);
    }
  }

  /** The model lines under one function, given that the function's records cost at most the total. */
  lemma ModelShares(w: seq<CallRecord>, total: real)
    requires forall i :: 0 <= i < |w| ==> w[i].costUsd >= 0.0
    requires SumCost(w) <= total
    ensures var ls := ModelLines(Ranking(w, ModelKey), total);
            forall j :: 0 <= j < |ls| ==> 0.0 <= ls[j].pct <= 100.0 && |ls[j].bar| == BarWidth
  {
    var ms := Ranking(w, ModelKey);
    RankingRows(w, ModelKey);
    forall j | 0 <= j < |ms| ensures 0.0 <= ModelLineOf(ms[j], total).pct <= 100.0 && |ModelLineOf(ms[j], total).bar| == BarWidth {
      WhereCostBounds(w, ModelKey, ms[j].key);
      BarShape(Pct(ms[j].usage.cost, total), BarWidth);
    }
  }

  /** When every call comes from one function and costs something, that function gets the whole bar. */
  lemma SingleFunctionGetsAll(rs: seq<CallRecord>)
    requires |Keys(rs, FunctionKey)| == 1 && SumCost(rs) > 0.0
    ensures TextReportOf(rs).Text? && |TextReportOf(rs).lines| == 1
    ensures TextReportOf(rs).lines[0].pct == 100.0
    ensures TextReportOf(rs).lines[0].bar == Repeat('█', BarWidth)
  {
    RankingRows(rs, FunctionKey);
    var fns := Ranking(rs, FunctionKey);
    assert RowCost(fns) == fns[0].usage.cost by {
      assert fns[1..] == [];
    }
    assert Filled(100.0, BarWidth) == BarWidth;
  }

  // ---------------------------------------------------------------------------
  // `render_html`

  const BarMaxWidth := 580
  const NoCallsHtml := "<p>No LLM calls recorded.</p>"

  /** One bar of the SVG flame graph. */
  datatype SvgBar = SvgBar(name: string, cost: real, fraction: real, width: int, color: string, y: int)

  /** One row of the "Breakdown by Model" table. */
  datatype ModelRow = ModelRow(model: string, cost: real, pct: real, inputTokens: nat, outputTokens: nat)

  /** The HTML report: the sentinel for no records, or its figures, bars and tables. */
  datatype HtmlReport =
    | EmptyHtml(text: string)
    | Html(totalCost: real, totalTokens: nat, calls: seq<CallRecord>, bars: seq<SvgBar>,
           svgHeight: int, models: seq<ModelRow>)

  function SvgBarOf(row: Row, total: real, i: int): SvgBar {
    var fraction := Fraction(row.usage.cost, total);
    SvgBar(row.key, row.usage.cost, fraction, Trunc(fraction * BarMaxWidth as real), CostColor(fraction), 40 + 36 * i)
  }

  function SvgBars(rows: seq<Row>, total: real): (bs: seq<SvgBar>)
    ensures |bs| == |rows| && forall i :: 0 <= i < |rows| ==> bs[i] == SvgBarOf(rows[i], total, i)
  {
    seq(|rows|, i requires 0 <= i < |rows| => SvgBarOf(rows[i], total, i))
  }

  function ModelRowOf(row: Row, total: real): ModelRow {
    ModelRow(row.key, row.usage.cost, Pct(row.usage.cost, total), row.usage.inputTokens, row.usage.outputTokens)
  }

  function ModelRows(rows: seq<Row>, total: real): (ms: seq<ModelRow>)
    ensures |ms| == |rows| && forall j :: 0 <= j < |rows| ==> ms[j] == ModelRowOf(rows[j], total)
  {
    seq(|rows|, j requires 0 <= j < |rows| => ModelRowOf(rows[j], total))
  }

  function ModelNames(ms: seq<ModelRow>): (ns: seq<string>)
    ensures |ns| == |ms| && forall j :: 0 <= j < |ms| ==> ns[j] == ms[j].model
  {
    seq(|ms|, j requires 0 <= j < |ms| => ms[j].model)
  }

  function BarNames(bs: seq<SvgBar>): (ns: seq<string>)
    ensures |ns| == |bs| && forall i :: 0 <= i < |bs| ==> ns[i] == bs[i].name
  {
    seq(|bs|, i requires 0 <= i < |bs| => bs[i].name)
  }

  /** What `render_html` reports for the records rs. */
  function HtmlReportOf(rs: seq<CallRecord>): HtmlReport {
    if rs == [] then EmptyHtml(NoCallsHtml)
    else
      var total := SumCost(rs);
      var fns := Ranking(rs, FunctionKey);
      Html(total, SumTokens(rs), rs, SvgBars(fns, total), 40 + 36 * |fns| + 20,
           ModelRows(Ranking(rs, ModelKey), total))
  }

  /** The SVG bars for rows already ranked, as `render_html`'s loop builds them, and the `y` it ends at. */
  method BarsOf(sortedFns: seq<Row>, total: real) returns (bars: seq<SvgBar>, y: int)
    ensures bars == SvgBars(sortedFns, total)
    ensures y == 40 + 36 * |bars|
  {
    bars, y := [], 40;
    for i := 0 to |sortedFns|
      invariant |bars| == i && y == 40 + 36 * i
      invariant forall j :: 0 <= j < i ==> bars[j] == SvgBarOf(sortedFns[j], total, j)
    {
      var cost := sortedFns[i].usage.cost;
      var pct := Fraction(cost, total);
      bars := bars + [SvgBar(sortedFns[i].key, cost, pct, Trunc(pct * BarMaxWidth as real), CostColor(pct), y)];
      y := y + 36;
    }
  }

  /** The SVG bars of `render_html`: the records grouped by function and ranked, then drawn. */
  method BuildBars(records: seq<CallRecord>, total: real) returns (bars: seq<SvgBar>, y: int)
    ensures bars == SvgBars(Ranking(records, FunctionKey), total)
    ensures y == 40 + 36 * |bars|
  {
    var sortedFns, _ := RankFunctions(records);
    bars, y := BarsOf(sortedFns, total);
  }

  /** The model table rows, as `render_html`'s aggregation loop and row loop build them. */
  method BuildModelRows(records: seq<CallRecord>, total: real) returns (rows: seq<ModelRow>)
    ensures rows == ModelRows(Ranking(records, ModelKey), total)
  {
    var modelOrder, modelAgg := Accumulate(records, ModelKey);
    EntriesAreUsages(records, ModelKey, modelOrder, modelAgg);
    var sortedModels := ByCost(Entries(modelOrder, modelAgg));
    rows := [];
    for j := 0 to |sortedModels|
      invariant |rows| == j
      invariant forall m :: 0 <= m < j ==> rows[m] == ModelRowOf(sortedModels[m], total)
    {
      var u := sortedModels[j].usage;
      rows := rows + [ModelRow(sortedModels[j].key, u.cost, Pct(u.cost, total), u.inputTokens, u.outputTokens)];
    }
  }

  /** `render_html(tracker)`, without writing the document anywhere. */
  method RenderHtml(t: Ledger) returns (r: HtmlReport)
    ensures r == HtmlReportOf(t.records)
  {
    var records := t.records;
    if records == [] {
      return EmptyHtml(NoCallsHtml);
    }
    var total := t.TotalCost();
    var totalTokens := t.TotalTokens();
    var bars, y := BuildBars(records, total);
    var rows := BuildModelRows(records, total);
    r := Html(total, totalTokens, records, bars, y + 20, rows);
  }

  /**
   * The SVG bars of a non-empty report: one per distinct function (the names are
   * a permutation of the functions), most expensive first, stacked 36 units apart
   * from y = 40, each with the cost of exactly its records, its share of the
   * total, a width of that share of 580 units, and the colour of that share.
   */
  lemma HtmlBars(rs: seq<CallRecord>)
    requires rs != []
    ensures var bars := HtmlReportOf(rs).bars;
            multiset(BarNames(bars)) == multiset(Keys(rs, FunctionKey)) &&
            (forall i :: 0 <= i < |bars| ==>
               bars[i].y == 40 + 36 * i &&
               bars[i].cost == SumCost(Where(rs, FunctionKey, bars[i].name)) &&
               bars[i].fraction == Fraction(bars[i].cost, SumCost(rs)) &&
               bars[i].width == Trunc(bars[i].fraction * 580.0) &&
               bars[i].color == CostColor(bars[i].fraction)) &&
            (forall i, j :: 0 <= i < j < |bars| ==> bars[i].cost >= bars[j].cost)
  {
    var total, fns := SumCost(rs), Ranking(rs, FunctionKey);
    var bars := HtmlReportOf(rs).bars;
    assert bars == SvgBars(fns, total);
    RankingRows(rs, FunctionKey);
    assert BarNames(bars) == KeysOf(fns);
  }

  /**
   * The HTML report: the sentinel exactly when there are no records; otherwise
   * the total cost and tokens, every call in recording order, the bars of
   * `HtmlBars`, and an SVG 20 units taller than the last bar's offset.
   */
  lemma HtmlReportFacts(rs: seq<CallRecord>)
    ensures HtmlReportOf(rs).EmptyHtml? <==> rs == []
    ensures rs == [] ==> HtmlReportOf(rs).text == "<p>No LLM calls recorded.</p>"
    ensures rs != [] ==>
            var r := HtmlReportOf(rs);
            r.totalCost == SumCost(rs) && r.totalTokens == SumInput(rs) + SumOutput(rs) && r.calls == rs &&
            multiset(BarNames(r.bars)) == multiset(Keys(rs, FunctionKey)) &&
            r.svgHeight == 60 + 36 * |r.bars| &&
            (forall i :: 0 <= i < |r.bars| ==>
               r.bars[i].y == 40 + 36 * i &&
               r.bars[i].cost == SumCost(Where(rs, FunctionKey, r.bars[i].name)) &&
               r.bars[i].fraction == Fraction(r.bars[i].cost, SumCost(rs)) &&
               r.bars[i].width == Trunc(r.bars[i].fraction * 580.0) &&
               r.bars[i].color == CostColor(r.bars[i].fraction)) &&
            (forall i, j :: 0 <= i < j < |r.bars| ==> r.bars[i].cost >= r.bars[j].cost)
  {
    SumTokensSplit(rs);
    if rs != [] {
      HtmlBars(rs);
    }
  }

  /**
   * The model table: one row per distinct model (the names are a permutation of
   * the models), each with that model's summed cost, input and output tokens.
   */
  lemma HtmlModelTable(rs: seq<CallRecord>)
    requires rs != []
    ensures var ms := HtmlReportOf(rs).models;
            multiset(ModelNames(ms)) == multiset(Keys(rs, ModelKey)) &&
            (forall i, j :: 0 <= i < j < |ms| ==> ms[i].cost >= ms[j].cost) &&
            forall j :: 0 <= j < |ms| ==>
              var w := Where(rs, ModelKey, ms[j].model);
              ms[j].cost == SumCost(w) && ms[j].inputTokens == SumInput(w) && ms[j].outputTokens == SumOutput(w)
  {
    RankingRows(rs, ModelKey);
    assert ModelNames(HtmlReportOf(rs).models) == KeysOf(Ranking(rs, ModelKey));
  }

  /** With non-negative costs no SVG bar is negative or wider than 580. */
  lemma HtmlBarWidths(rs: seq<CallRecord>)
    requires rs != []
    requires forall i :: 0 <= i < |rs| ==> rs[i].costUsd >= 0.0
    ensures forall i :: 0 <= i < |HtmlReportOf(rs).bars| ==> 0 <= HtmlReportOf(rs).bars[i].width <= BarMaxWidth
  {
    var r := HtmlReportOf(rs);
    var fns := Ranking(rs, FunctionKey);
    RankingRows(rs, FunctionKey);
    forall i | 0 <= i < |r.bars| ensures 0 <= r.bars[i].width <= BarMaxWidth {
      WhereCostBounds(rs, FunctionKey, fns[i].key);
      var f := r.bars[i].fraction;
      assert 0.0 <= f <= 1.0;
      ScaleAtMost(f, 1.0, BarMaxWidth as real);
    }
  }
}
