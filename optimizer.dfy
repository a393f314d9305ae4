/**
 * `llmspy.optimizer`: rule-based hints for cutting the cost of the tracked calls.
 * The calls are grouped by call site (function name and model); each group gets up
 * to three hints from four rules, and all hints are ordered by severity and then by
 * the monthly saving they promise.
 */
module Optimizer {
  import opened Results
  import opened Records
  import opened Sorting
  import opened Pricing
  import opened Tracker
  import Flamegraph

  /** The default call rate the monthly figures assume. */
  const CallsPerMinuteDefault: real := 5.0

  /** 60 minutes times 8 hours times 22 working days. */
  const MinutesPerMonth: nat := 60 * 8 * 22

  datatype Severity = High | Medium | Low

  /** The first component of the sort key: high first. */
  function Rank(s: Severity): nat {
    match s
    case High => 0
    case Medium => 1
    case Low => 2
  }

  /** What a hint suggests, with the figures its text quotes. */
  datatype Suggestion =
    | SwitchModel(alternative: string, percentCheaper: real)
    | TrimInput(averageInput: real)
    | BeConcise(averageOutput: real)
    | SmallTask(averageOutput: real, alternative: string)

  /** `Hint`: the dataclass the optimizer returns. */
  datatype Hint = Hint(
    functionName: string,
    currentModel: string,
    suggestion: Suggestion,
    monthlySavings: Option<real>,
    severity: Severity)

  // ---------------------------------------------------------------------------
  // One call site.

  /** The figures generate_hints works out for one call site before applying its rules. */
  datatype Figures = Figures(
    averageInput: real,
    averageOutput: real,
    monthlyCalls: real,
    monthlyCost: real,
    alternative: Option<string>,
    alternativeCost: real)

  function AverageInput(recs: seq<CallRecord>): (avg: real)
    requires recs != []
    ensures avg >= 0.0
  {
    SumInput(recs) as real / |recs| as real
  }

  function AverageOutput(recs: seq<CallRecord>): (avg: real)
    requires recs != []
    ensures avg >= 0.0
  {
    SumOutput(recs) as real / |recs| as real
  }

  function MonthlyCalls(callsPerMinute: real): real {
    callsPerMinute * MinutesPerMonth as real
  }

  /** The average cost per call times the calls per month: zero exactly when the cost or the rate is. */
  function MonthlyCost(recs: seq<CallRecord>, callsPerMinute: real): (c: real)
    requires recs != []
    ensures c == 0.0 <==> SumCost(recs) == 0.0 || callsPerMinute == 0.0
  {
    ZeroProduct(SumCost(recs), |recs| as real, callsPerMinute);
    SumCost(recs) / |recs| as real * MonthlyCalls(callsPerMinute)
  }

  /**
   * The two pricing functions the optimizer consults. The rules and their
   * properties hold for any tables; generate_hints uses the built-in ones.
   */
  datatype PriceBook = PriceBook(cheaperAlternative: string -> Option<string>, calculate: (string, int, int) -> real)

  /** `pricing.get_cheaper_alternative` and `pricing.calculate`. */
  const Builtin := PriceBook(CheaperAlternative, Calculate)

  /** What the cheaper model would charge for the average call, its token counts cut to integers. */
  function AlternativeCost(book: PriceBook, alt: Option<string>, averageInput: real, averageOutput: real): real {
    if alt.Some? then book.calculate(alt.value, Flamegraph.Trunc(averageInput), Flamegraph.Trunc(averageOutput)) else 0.0
  }

  /** The figures of the call site `model` whose records are recs. */
  function FiguresOf(book: PriceBook, model: string, recs: seq<CallRecord>, callsPerMinute: real): Figures
    requires recs != []
  {
    var avgIn, avgOut := AverageInput(recs), AverageOutput(recs);
    var alt := book.cheaperAlternative(model);
    Figures(avgIn, avgOut, MonthlyCalls(callsPerMinute), MonthlyCost(recs, callsPerMinute), alt, AlternativeCost(book, alt, avgIn, avgOut))
  }

  /** A monthly cost is zero exactly when the cost or the call rate is. */
  lemma ZeroProduct(cost: real, n: real, callsPerMinute: real)
    requires n > 0.0
    ensures cost / n * (callsPerMinute * MinutesPerMonth as real) == 0.0 <==> cost == 0.0 || callsPerMinute == 0.0
  {
    var perCall, monthlyCalls := cost / n, callsPerMinute * MinutesPerMonth as real;
    assert perCall == 0.0 <==> cost == 0.0 by {
      assert perCall * n == cost;
    }
    assert monthlyCalls == 0.0 <==> callsPerMinute == 0.0;
  }

  /** The severity of a switch hint: above $100 a month high, above $20 medium. */
  function SavingsSeverity(savings: real): (s: Severity)
    ensures s == High <==> savings > 100.0
    ensures s == Medium <==> 20.0 < savings <= 100.0
    ensures s == Low <==> savings <= 20.0
  {
    if savings > 100.0 then High else if savings > 20.0 then Medium else Low
  }

  /**
   * Rule 1: switch to the cheaper model. The saving is the monthly cost less the
   * cheaper model's monthly cost, and the percentage quoted is that saving over
   * the monthly cost.
   */
  function SwitchRule(fn: string, model: string, f: Figures): (hs: seq<Hint>)
    requires f.alternative.Some? ==> f.monthlyCost != 0.0
    ensures |hs| <= 1 && (hs != [] <==> f.alternative.Some?)
    ensures forall h :: h in hs ==>
              h.functionName == fn && h.currentModel == model &&
              h.suggestion.SwitchModel? && h.suggestion.alternative == f.alternative.value &&
              h.monthlySavings.Some? && h.monthlySavings.value + f.alternativeCost * f.monthlyCalls == f.monthlyCost &&
              h.severity == SavingsSeverity(h.monthlySavings.value)
  {
    if f.alternative.Some? then
      var savings := f.monthlyCost - f.alternativeCost * f.monthlyCalls;
      [Hint(fn, model, SwitchModel(f.alternative.value, savings / f.monthlyCost * 100.0), Some(savings), SavingsSeverity(savings))]
    else []
  }

  /** Rule 2: trim the input when the average input exceeds 4000 tokens; high above 10000. */
  function InputRule(fn: string, model: string, f: Figures): (hs: seq<Hint>)
    ensures |hs| <= 1 && (hs != [] <==> f.averageInput > 4000.0)
    ensures forall h :: h in hs ==>
              h.functionName == fn && h.currentModel == model && h.suggestion.TrimInput? &&
              h.monthlySavings.None? && h.severity != Low && (h.severity == High <==> f.averageInput > 10000.0)
  {
    if f.averageInput > 4000.0 then
      [Hint(fn, model, TrimInput(f.averageInput), None, if f.averageInput > 10000.0 then High else Medium)]
    else []
  }

  /** Rule 3: ask for concision when the average output exceeds 2000 tokens. */
  function VerboseRule(fn: string, model: string, f: Figures): (hs: seq<Hint>)
    ensures |hs| <= 1 && (hs != [] <==> f.averageOutput > 2000.0)
    ensures forall h :: h in hs ==>
              h.functionName == fn && h.currentModel == model && h.suggestion.BeConcise? &&
              h.monthlySavings.None? && h.severity == Low
  {
    if f.averageOutput > 2000.0 then [Hint(fn, model, BeConcise(f.averageOutput), None, Low)] else []
  }

  /** Rule 4: a short output on a model with a cheaper alternative. */
  function SmallTaskRule(fn: string, model: string, f: Figures): (hs: seq<Hint>)
    ensures |hs| <= 1 && (hs != [] <==> f.averageOutput < 200.0 && f.alternative.Some?)
    ensures forall h :: h in hs ==>
              h.functionName == fn && h.currentModel == model && h.suggestion.SmallTask? &&
              h.monthlySavings.None? && h.severity == Low
  {
    if f.averageOutput < 200.0 && f.alternative.Some? then
      [Hint(fn, model, SmallTask(f.averageOutput, f.alternative.value), None, Low)]
    else []
  }

  /**
   * The hints of one call site, in rule order. The percentage of rule 1 divides by
   * the monthly cost, so a call site with a cheaper alternative and no monthly cost
   * (free calls, or a call rate of zero) raises ZeroDivisionError.
   */
  function GroupHints(fn: string, model: string, f: Figures): (r: Result<seq<Hint>>)
    ensures r.Raised? <==> f.alternative.Some? && f.monthlyCost == 0.0
    ensures r.Raised? ==> r.error == ZeroDivision
    ensures r.Ok? ==> |r.value| <= 3
    ensures r.Ok? ==> forall h :: h in r.value ==> h.functionName == fn && h.currentModel == model
    ensures r.Ok? ==> forall h :: h in r.value ==> (h.monthlySavings.Some? <==> h.suggestion.SwitchModel?)
  {
    if f.alternative.Some? && f.monthlyCost == 0.0 then
      Raised(ZeroDivision)
    else
      Ok(SwitchRule(fn, model, f) + InputRule(fn, model, f) + VerboseRule(fn, model, f) + SmallTaskRule(fn, model, f))
  }

  /** The hints a call site gets because a cheaper model exists: a switch always, a small-task hint for short outputs. */
  lemma GroupHintKinds(fn: string, model: string, f: Figures)
    requires GroupHints(fn, model, f).Ok?
    ensures var hs := GroupHints(fn, model, f).value;
      ((exists h :: h in hs && h.suggestion.SwitchModel?) <==> f.alternative.Some?) &&
      ((exists h :: h in hs && h.suggestion.SmallTask?) <==> f.averageOutput < 200.0 && f.alternative.Some?)
  {
    var a, b, c, d := SwitchRule(fn, model, f), InputRule(fn, model, f), VerboseRule(fn, model, f), SmallTaskRule(fn, model, f);
    assert GroupHints(fn, model, f).value == a + b + c + d;
    if a != [] { assert a[0] in a + b + c + d; }
    if d != [] { assert d[0] in a + b + c + d; }
  }

  /** The hints a call site gets for its token counts: trim a long input, be concise for a long output. */
  lemma GroupHintSizes(fn: string, model: string, f: Figures)
    requires GroupHints(fn, model, f).Ok?
    ensures var hs := GroupHints(fn, model, f).value;
      ((exists h :: h in hs && h.suggestion.TrimInput?) <==> f.averageInput > 4000.0) &&
      ((exists h :: h in hs && h.suggestion.BeConcise?) <==> f.averageOutput > 2000.0)
  {
    var a, b, c, d := SwitchRule(fn, model, f), InputRule(fn, model, f), VerboseRule(fn, model, f), SmallTaskRule(fn, model, f);
    assert GroupHints(fn, model, f).value == a + b + c + d;
    if b != [] { assert b[0] in a + b + c + d; }
    if c != [] { assert c[0] in a + b + c + d; }
  }

  /** The severity and saving of each hint a call site gets, by kind. */
  lemma GroupHintSeverities(fn: string, model: string, f: Figures)
    requires GroupHints(fn, model, f).Ok?
    ensures forall h :: h in GroupHints(fn, model, f).value ==>
      (h.suggestion.SwitchModel? ==> h.monthlySavings.Some? && h.severity == SavingsSeverity(h.monthlySavings.value) &&
                                     h.monthlySavings.value + f.alternativeCost * f.monthlyCalls == f.monthlyCost) &&
      (h.suggestion.TrimInput? ==> h.monthlySavings.None? && h.severity != Low && (h.severity == High <==> f.averageInput > 10000.0)) &&
      (h.suggestion.BeConcise? ==> h.monthlySavings.None? && h.severity == Low) &&
      (h.suggestion.SmallTask? ==> h.monthlySavings.None? && h.severity == Low)
  {
    var a, b, c, d := SwitchRule(fn, model, f), InputRule(fn, model, f), VerboseRule(fn, model, f), SmallTaskRule(fn, model, f);
    assert GroupHints(fn, model, f).value == a + b + c + d;
  }

  /** Every key of rs has a non-empty group. */
  lemma WhereNonEmpty(rs: seq<CallRecord>)
    ensures forall k :: k in Keys(rs, CallSiteKey) ==> Where(rs, CallSiteKey, k) != []
  {
    forall k | k in Keys(rs, CallSiteKey) ensures Where(rs, CallSiteKey, k) != [] {
      WhereExactly(rs, CallSiteKey, k);
    }
  }

  /** A call site with its figures. */
  datatype Site = Site(functionName: string, model: string, figures: Figures)

  function SiteOf(book: PriceBook, rs: seq<CallRecord>, k: (string, string), callsPerMinute: real): Site
    requires Where(rs, CallSiteKey, k) != []
  {
    Site(k.0, k.1, FiguresOf(book, k.1, Where(rs, CallSiteKey, k), callsPerMinute))
  }

  /** The call sites of rs in the order `groups.items()` yields them, each with its figures. */
  function Sites(book: PriceBook, rs: seq<CallRecord>, callsPerMinute: real): (ss: seq<Site>)
    ensures |ss| == |Keys(rs, CallSiteKey)|
    ensures forall i :: 0 <= i < |ss| ==>
              Where(rs, CallSiteKey, Keys(rs, CallSiteKey)[i]) != [] &&
              ss[i] == SiteOf(book, rs, Keys(rs, CallSiteKey)[i], callsPerMinute)
  {
    WhereNonEmpty(rs);
    var ks := Keys(rs, CallSiteKey);
    seq(|ks|, i requires 0 <= i < |ks| => SiteOf(book, rs, ks[i], callsPerMinute))
  }

  function SiteHints(s: Site): Result<seq<Hint>> {
    GroupHints(s.functionName, s.model, s.figures)
  }

  /** The hints of the call sites in turn, stopping at the first one that raises. */
  function AllHints(ss: seq<Site>): Result<seq<Hint>> {
    if ss == [] then Ok([])
    else
      match AllHints(ss[..|ss| - 1])
      case Raised(e) => Raised(e)
      case Ok(hs) =>
        match SiteHints(ss[|ss| - 1])
        case Raised(e) => Raised(e)
        case Ok(more) => Ok(hs + more)
  }

  // ---------------------------------------------------------------------------
  // The sort: key (rank of the severity, minus the saving or 0), ascending.

  function SavingsOrZero(h: Hint): real {
    if h.monthlySavings.Some? then h.monthlySavings.value else 0.0
  }

  function HintOrder(a: Hint, b: Hint): bool {
    Rank(a.severity) < Rank(b.severity) ||
    (Rank(a.severity) == Rank(b.severity) && SavingsOrZero(a) >= SavingsOrZero(b))
  }

  lemma HintOrderTotal()
    ensures Total(HintOrder)
  {
  }

  lemma HintOrderTransitive()
    ensures Transitive(HintOrder)
  {
  }

  function BySeverity(hs: seq<Hint>): (r: seq<Hint>)
    ensures Sorted(r, HintOrder) && multiset(r) == multiset(hs) && |r| == |hs|
  {
    HintOrderTotal();
    SortBy(hs, HintOrder)
  }

  /** The sort is stable: hints with the same sort key keep their order. */
  lemma BySeverityStable(hs: seq<Hint>, y: Hint)
    ensures Tied(BySeverity(hs), y, HintOrder) == Tied(hs, y, HintOrder)
  {
    HintOrderTotal();
    HintOrderTransitive();
    SortByStable(hs, HintOrder, y);
  }

  /** generate_hints over the records rs with the given price tables. */
  function HintsWith(book: PriceBook, rs: seq<CallRecord>, callsPerMinute: real): Result<seq<Hint>> {
    if rs == [] then Ok([])
    else
      match AllHints(Sites(book, rs, callsPerMinute))
      case Raised(e) => Raised(e)
      case Ok(hs) => Ok(BySeverity(hs))
  }

  /** `generate_hints(tracker, calls_per_minute)` over the tracker's records. */
  function HintsOf(rs: seq<CallRecord>, callsPerMinute: real): Result<seq<Hint>> {
    HintsWith(Builtin, rs, callsPerMinute)
  }

  /** Once a prefix of the call sites raises, so does the whole sequence, with the same error. */
  lemma {:induction false} RaisedStays(ss: seq<Site>, j: nat)
    requires j <= |ss| && AllHints(ss[..j]).Raised?
    ensures AllHints(ss) == AllHints(ss[..j])
  {
    if j < |ss| {
      var p := ss[..|ss| - 1];
      assert p[..j] == ss[..j];
      RaisedStays(p, j);
    } else {
      assert ss[..j] == ss;
    }
  }

  /** `AllHints` of one more call site. */
  lemma AllHintsExtend(ss: seq<Site>, i: nat)
    requires i < |ss| && AllHints(ss[..i]).Ok?
    ensures SiteHints(ss[i]).Raised? ==> AllHints(ss[..i + 1]) == Raised(SiteHints(ss[i]).error)
    ensures SiteHints(ss[i]).Ok? ==> AllHints(ss[..i + 1]) == Ok(AllHints(ss[..i]).value + SiteHints(ss[i]).value)
  {
    assert ss[..i + 1][..i] == ss[..i];
  }

  /** The loop over `groups.items()`: each call site's hints in turn, until one raises. */
  method CollectHints(book: PriceBook, records: seq<CallRecord>, callsPerMinute: real, order: seq<(string, string)>,
                      groups: map<(string, string), seq<CallRecord>>) returns (r: Result<seq<Hint>>)
    requires order == Keys(records, CallSiteKey)
    requires forall k :: k in groups <==> k in order
    requires forall k :: k in groups ==> groups[k] == Where(records, CallSiteKey, k)
    ensures r == AllHints(Sites(book, records, callsPerMinute))
  {
    ghost var sites := Sites(book, records, callsPerMinute);
    forall i | 0 <= i < |order|
      ensures order[i] in groups && groups[order[i]] != [] && sites[i] == Site(order[i].0, order[i].1, FiguresOf(book, order[i].1, groups[order[i]], callsPerMinute))
    {
      assert order[i] in order;
    }
    r := SiteLoop(book, callsPerMinute, order, groups, sites);
  }

  /** The figures the loop body works out for one call site from its records. */
  method SiteOfGroup(book: PriceBook, key: (string, string), recs: seq<CallRecord>, callsPerMinute: real) returns (site: Site)
    requires recs != []
    ensures site == Site(key.0, key.1, FiguresOf(book, key.1, recs, callsPerMinute))
  {
    var avgIn, avgOut := AverageInput(recs), AverageOutput(recs);
    var monthlyCalls := MonthlyCalls(callsPerMinute);
    var monthlyCost := MonthlyCost(recs, callsPerMinute);
    var alt := book.cheaperAlternative(key.1);
    site := Site(key.0, key.1, Figures(avgIn, avgOut, monthlyCalls, monthlyCost, alt, AlternativeCost(book, alt, avgIn, avgOut)));
  }

  /** The body of that loop, over call sites whose figures are already known to be the spec's. */
  method SiteLoop(book: PriceBook, callsPerMinute: real, order: seq<(string, string)>,
                  groups: map<(string, string), seq<CallRecord>>, ghost sites: seq<Site>) returns (r: Result<seq<Hint>>)
    requires |sites| == |order|
    requires forall i :: 0 <= i < |order| ==>
               order[i] in groups && groups[order[i]] != [] && sites[i] == Site(order[i].0, order[i].1, FiguresOf(book, order[i].1, groups[order[i]], callsPerMinute))
    ensures r == AllHints(sites)
  {
    var hints: seq<Hint> := [];
    for i := 0 to |order|
      invariant AllHints(sites[..i]) == Ok(hints)
    {
      var key := order[i];
      var site := SiteOfGroup(book, key, groups[key], callsPerMinute);
      AllHintsExtend(sites, i);
      var res := SiteHints(site);
      if res.Raised? {
        RaisedStays(sites, i + 1);
        return Raised(res.error);
      }
      hints := hints + res.value;
    }
    assert sites[..|order|] == sites;
    r := Ok(hints);
  }

  /** `generate_hints(tracker, calls_per_minute)` */
  method GenerateHints(t: Ledger, callsPerMinute: real) returns (r: Result<seq<Hint>>)
    ensures t.records == [] ==> r == Ok([])
    ensures r == HintsOf(t.records, callsPerMinute)
  {
    var records := t.records;
    if records == [] {
      return Ok([]);
    }
    var order, groups := Flamegraph.GroupBy(records, CallSiteKey);
    var hints := CollectHints(Builtin, records, callsPerMinute, order, groups);
    if hints.Raised? {
      return Raised(hints.error);
    }
    r := Ok(BySeverity(hints.value));
  }

  // ---------------------------------------------------------------------------
  // What generate_hints promises.

  /** The hints raise exactly when some call site has a cheaper model and no monthly cost. */
  lemma {:induction false} AllHintsRaise(ss: seq<Site>)
    ensures AllHints(ss).Raised? <==>
            exists i :: 0 <= i < |ss| && ss[i].figures.alternative.Some? && ss[i].figures.monthlyCost == 0.0
    ensures AllHints(ss).Raised? ==> AllHints(ss).error == ZeroDivision
  {
    if ss != [] {
      var p, last := ss[..|ss| - 1], ss[|ss| - 1];
      AllHintsRaise(p);
      if AllHints(p).Raised? {
        var i :| 0 <= i < |p| && p[i].figures.alternative.Some? && p[i].figures.monthlyCost == 0.0;
        assert p[i] == ss[i];
      } else if SiteHints(last).Raised? {
        assert AllHints(ss) == SiteHints(last);
      } else {
        forall i | 0 <= i < |ss| ensures !(ss[i].figures.alternative.Some? && ss[i].figures.monthlyCost == 0.0) {
          if i < |p| {
            assert p[i] == ss[i];
          }
        }
      }
    }
  }

  /** Without an error, each call site contributes at most three hints. */
  lemma {:induction false} AllHintsCount(ss: seq<Site>)
    requires AllHints(ss).Ok?
    ensures |AllHints(ss).value| <= 3 * |ss|
  {
    if ss != [] {
      AllHintsCount(ss[..|ss| - 1]);
    }
  }

  /** Without an error, the i-th call site raised nothing and each of its hints is among the hints. */
  lemma {:induction false} AllHintsCoverAt(ss: seq<Site>, i: nat)
    requires AllHints(ss).Ok? && i < |ss|
    ensures SiteHints(ss[i]).Ok?
    ensures forall h :: h in SiteHints(ss[i]).value ==> h in AllHints(ss).value
  {
    var p, last := ss[..|ss| - 1], ss[|ss| - 1];
    var hs, more := AllHints(p).value, SiteHints(last).value;
    assert AllHints(ss).value == hs + more;
    if i < |p| {
      AllHintsCoverAt(p, i);
      assert p[i] == ss[i];
    }
  }

  /** Without an error, every hint of every call site is among the hints. */
  lemma AllHintsCover(ss: seq<Site>)
    requires AllHints(ss).Ok?
    ensures forall i :: 0 <= i < |ss| ==>
              SiteHints(ss[i]).Ok? && forall h :: h in SiteHints(ss[i]).value ==> h in AllHints(ss).value
  {
    forall i | 0 <= i < |ss|
      ensures SiteHints(ss[i]).Ok? && forall h :: h in SiteHints(ss[i]).value ==> h in AllHints(ss).value
    {
      AllHintsCoverAt(ss, i);
    }
  }

  /** Every hint comes from some call site. */
  lemma {:induction false} AllHintsFrom(ss: seq<Site>)
    requires AllHints(ss).Ok?
    ensures forall h :: h in AllHints(ss).value ==> exists i :: 0 <= i < |ss| && SiteHints(ss[i]).Ok? && h in SiteHints(ss[i]).value
  {
    if ss != [] {
      var p := ss[..|ss| - 1];
      AllHintsFrom(p);
      assert forall i :: 0 <= i < |p| ==> p[i] == ss[i];
    }
  }

  /** The figures of the i-th call site name its cheaper model and have no monthly cost when it costs nothing. */
  lemma SiteFigures(book: PriceBook, rs: seq<CallRecord>, callsPerMinute: real, i: nat)
    requires i < |Keys(rs, CallSiteKey)|
    ensures var k, f := Keys(rs, CallSiteKey)[i], Sites(book, rs, callsPerMinute)[i].figures;
      f.alternative == book.cheaperAlternative(k.1) &&
      (f.monthlyCost == 0.0 <==> SumCost(Where(rs, CallSiteKey, k)) == 0.0 || callsPerMinute == 0.0)
  {
  }

  /** When generate_hints raises, it is ZeroDivisionError, from a call site with a cheaper model and no monthly cost. */
  lemma RaisingSite(book: PriceBook, rs: seq<CallRecord>, callsPerMinute: real)
    requires HintsWith(book, rs, callsPerMinute).Raised?
    ensures HintsWith(book, rs, callsPerMinute).error == ZeroDivision
    ensures exists k :: k in Keys(rs, CallSiteKey) && book.cheaperAlternative(k.1).Some? &&
              (SumCost(Where(rs, CallSiteKey, k)) == 0.0 || callsPerMinute == 0.0)
  {
    var ss, ks := Sites(book, rs, callsPerMinute), Keys(rs, CallSiteKey);
    AllHintsRaise(ss);
    var i :| 0 <= i < |ss| && ss[i].figures.alternative.Some? && ss[i].figures.monthlyCost == 0.0;
    SiteFigures(book, rs, callsPerMinute, i);
    assert ks[i] in ks;
  }

  /** A call site with a cheaper model and no cost, or a call rate of zero, makes generate_hints raise. */
  lemma SiteRaises(book: PriceBook, rs: seq<CallRecord>, callsPerMinute: real, k: (string, string))
    requires k in Keys(rs, CallSiteKey) && book.cheaperAlternative(k.1).Some?
    requires SumCost(Where(rs, CallSiteKey, k)) == 0.0 || callsPerMinute == 0.0
    ensures HintsWith(book, rs, callsPerMinute) == Raised(ZeroDivision)
  {
    var ss, ks := Sites(book, rs, callsPerMinute), Keys(rs, CallSiteKey);
    AllHintsRaise(ss);
    var i :| 0 <= i < |ks| && ks[i] == k;
    SiteFigures(book, rs, callsPerMinute, i);
  }

  /** High before medium before low, and within a severity the larger saving first. */
  lemma HintsOrdered(book: PriceBook, rs: seq<CallRecord>, callsPerMinute: real)
    requires HintsWith(book, rs, callsPerMinute).Ok?
    ensures forall i, j :: 0 <= i < j < |HintsWith(book, rs, callsPerMinute).value| ==>
              var a, b := HintsWith(book, rs, callsPerMinute).value[i], HintsWith(book, rs, callsPerMinute).value[j];
              Rank(a.severity) <= Rank(b.severity) &&
              (a.severity == b.severity ==> SavingsOrZero(a) >= SavingsOrZero(b))
  {
    var hs := HintsWith(book, rs, callsPerMinute).value;
    HintOrderTransitive();
    SortedAllPairs(hs, HintOrder);
  }

  /**
   * The sorted hints are those of the call sites: at most three per call site,
   * every hint of every call site, and no other.
   */
  lemma HintsContents(book: PriceBook, rs: seq<CallRecord>, callsPerMinute: real)
    requires rs != [] && HintsWith(book, rs, callsPerMinute).Ok?
    ensures |HintsWith(book, rs, callsPerMinute).value| <= 3 * |Keys(rs, CallSiteKey)|
    ensures forall i :: 0 <= i < |Sites(book, rs, callsPerMinute)| ==>
              SiteHints(Sites(book, rs, callsPerMinute)[i]).Ok? &&
              forall h :: h in SiteHints(Sites(book, rs, callsPerMinute)[i]).value ==> h in HintsWith(book, rs, callsPerMinute).value
    ensures forall h :: h in HintsWith(book, rs, callsPerMinute).value ==>
              exists i :: 0 <= i < |Sites(book, rs, callsPerMinute)| && SiteHints(Sites(book, rs, callsPerMinute)[i]).Ok? && h in SiteHints(Sites(book, rs, callsPerMinute)[i]).value
  {
    var ss := Sites(book, rs, callsPerMinute);
    AllHintsCount(ss);
    AllHintsCover(ss);
    AllHintsFrom(ss);
    var hs := AllHints(ss).value;
    assert HintsWith(book, rs, callsPerMinute).value == BySeverity(hs);
    forall h ensures h in hs <==> h in BySeverity(hs) {
      assert h in hs <==> h in multiset(hs);
      assert h in BySeverity(hs) <==> h in multiset(BySeverity(hs));
    }
  }

  /** Every hint of the i-th call site is among the sorted hints. */
  lemma SiteHintsKept(book: PriceBook, rs: seq<CallRecord>, callsPerMinute: real, i: nat)
    requires rs != [] && HintsWith(book, rs, callsPerMinute).Ok? && i < |Sites(book, rs, callsPerMinute)|
    ensures SiteHints(Sites(book, rs, callsPerMinute)[i]).Ok?
    ensures forall h :: h in SiteHints(Sites(book, rs, callsPerMinute)[i]).value ==> h in HintsWith(book, rs, callsPerMinute).value
  {
    var ss := Sites(book, rs, callsPerMinute);
    AllHintsCoverAt(ss, i);
    var hs := AllHints(ss).value;
    forall h | h in hs ensures h in BySeverity(hs) {
      assert h in multiset(hs);
    }
  }

  /**
   * Hints with the same severity and saving come out in the order generate_hints
   * produced them: call site by call site, in rule order within a call site.
   */
  lemma HintsTies(book: PriceBook, rs: seq<CallRecord>, callsPerMinute: real, y: Hint)
    requires rs != [] && HintsWith(book, rs, callsPerMinute).Ok?
    ensures AllHints(Sites(book, rs, callsPerMinute)).Ok?
    ensures Tied(HintsWith(book, rs, callsPerMinute).value, y, HintOrder) ==
            Tied(AllHints(Sites(book, rs, callsPerMinute)).value, y, HintOrder)
  {
    BySeverityStable(AllHints(Sites(book, rs, callsPerMinute)).value, y);
  }

  /** Each hint names the call site it is about. */
  lemma HintsNameTheirSite(book: PriceBook, rs: seq<CallRecord>, callsPerMinute: real)
    requires rs != [] && HintsWith(book, rs, callsPerMinute).Ok?
    ensures forall h :: h in HintsWith(book, rs, callsPerMinute).value ==> (h.functionName, h.currentModel) in Keys(rs, CallSiteKey)
  {
    HintsContents(book, rs, callsPerMinute);
    var ss, ks := Sites(book, rs, callsPerMinute), Keys(rs, CallSiteKey);
    forall h | h in HintsWith(book, rs, callsPerMinute).value ensures (h.functionName, h.currentModel) in ks {
      var i :| 0 <= i < |ss| && SiteHints(ss[i]).Ok? && h in SiteHints(ss[i]).value;
      assert ks[i] in ks;
    }
  }

  // ---------------------------------------------------------------------------
  // One call site with the built-in tables.

  /** One gpt-4o call of the given tokens and cost from the function `fn`. */
  function OneCall(inputTokens: nat, cost: real): seq<CallRecord> {
    [CallRecord("fn", ["fn"], "gpt-4o", "openai", inputTokens, 200, cost, 350.0)]
  }

  lemma GptFourOHasAlternative()
    ensures CheaperAlternative("gpt-4o") == Some("gpt-4o-mini")
  {
    assert Lower("gpt-4o") == "gpt-4o";
  }

  /** A single call site: its key, its records, and the figures generate_hints finds for it. */
  lemma OneCallSite(book: PriceBook, inputTokens: nat, cost: real)
    ensures var rs, k := OneCall(inputTokens, cost), ("fn", "gpt-4o");
      Keys(rs, CallSiteKey) == [k] && Where(rs, CallSiteKey, k) == rs && SumCost(rs) == cost &&
      |Sites(book, rs, CallsPerMinuteDefault)| == 1 &&
      Sites(book, rs, CallsPerMinuteDefault)[0].figures.averageInput == inputTokens as real &&
      Sites(book, rs, CallsPerMinuteDefault)[0].figures.alternative == book.cheaperAlternative("gpt-4o")
  {
    var rs := OneCall(inputTokens, cost);
    assert rs[..0] == [];
    assert SumInput(rs) == inputTokens;
  }

  /** With any tables that offer gpt-4o-mini for gpt-4o, a paid gpt-4o call gets a hint to switch. */
  lemma CheaperModelHint(book: PriceBook)
    requires book.cheaperAlternative("gpt-4o") == Some("gpt-4o-mini")
    ensures HintsWith(book, OneCall(1000, 0.01), CallsPerMinuteDefault).Ok?
    ensures exists h :: h in HintsWith(book, OneCall(1000, 0.01), CallsPerMinuteDefault).value &&
              h.suggestion.SwitchModel? && h.suggestion.alternative == "gpt-4o-mini"
  {
    var rs := OneCall(1000, 0.01);
    OneCallSite(book, 1000, 0.01);
    if HintsWith(book, rs, CallsPerMinuteDefault).Raised? {
      RaisingSite(book, rs, CallsPerMinuteDefault);
    }
    SiteHintsKept(book, rs, CallsPerMinuteDefault, 0);
    var s := Sites(book, rs, CallsPerMinuteDefault)[0];
    GroupHintKinds(s.functionName, s.model, s.figures);
  }

  /** A paid gpt-4o call gets a hint to switch to gpt-4o-mini. */
  lemma CheaperModelExample()
    ensures HintsOf(OneCall(1000, 0.01), CallsPerMinuteDefault).Ok?
    ensures exists h :: h in HintsOf(OneCall(1000, 0.01), CallsPerMinuteDefault).value &&
              h.suggestion.SwitchModel? && h.suggestion.alternative == "gpt-4o-mini"
  {
    GptFourOHasAlternative();
    CheaperModelHint(Builtin);
  }

  /** With any tables, an average input of 12000 tokens gets a high-severity hint to trim the input. */
  lemma LargeInputHint(book: PriceBook)
    ensures HintsWith(book, OneCall(12000, 0.05), CallsPerMinuteDefault).Ok?
    ensures exists h :: h in HintsWith(book, OneCall(12000, 0.05), CallsPerMinuteDefault).value &&
              h.suggestion.TrimInput? && h.severity == High
  {
    var rs := OneCall(12000, 0.05);
    OneCallSite(book, 12000, 0.05);
    if HintsWith(book, rs, CallsPerMinuteDefault).Raised? {
      RaisingSite(book, rs, CallsPerMinuteDefault);
    }
    SiteHintsKept(book, rs, CallsPerMinuteDefault, 0);
    var s := Sites(book, rs, CallsPerMinuteDefault)[0];
    GroupHintSizes(s.functionName, s.model, s.figures);
    GroupHintSeverities(s.functionName, s.model, s.figures);
  }

  /** An average input of 12000 tokens gets a high-severity hint to trim the input. */
  lemma LargeInputExample()
    ensures HintsOf(OneCall(12000, 0.05), CallsPerMinuteDefault).Ok?
    ensures exists h :: h in HintsOf(OneCall(12000, 0.05), CallsPerMinuteDefault).value &&
              h.suggestion.TrimInput? && h.severity == High
  {
    LargeInputHint(Builtin);
  }

  /** A free gpt-4o call makes generate_hints raise ZeroDivisionError. */
  lemma FreeCallRaises()
    ensures HintsOf(OneCall(1000, 0.0), CallsPerMinuteDefault) == Raised(ZeroDivision)
  {
    GptFourOHasAlternative();
    OneCallSite(Builtin, 1000, 0.0);
    SiteRaises(Builtin, OneCall(1000, 0.0), CallsPerMinuteDefault, ("fn", "gpt-4o"));
  }

  // ---------------------------------------------------------------------------
  // `Hint.__str__` and `render_hints`. Number formatting (`:.0f`, `:,.0f`) and the
  // wording of each suggestion are parameters: describe renders a suggestion and
  // dollars renders the monthly saving.

  function Icon(s: Severity): string {
    match s
    case High => "🔴"
    case Medium => "🟡"
    case Low => "🟢"
  }

  /** Python truthiness of `monthly_savings_usd`: neither None nor zero. */
  predicate ShowsSavings(h: Hint) {
    h.monthlySavings.Some? && h.monthlySavings.value != 0.0
  }

  /** The part of a hint's line before its suggestion. */
  function LineHead(h: Hint): string {
    "  " + Icon(h.severity) + " " + h.functionName + " [" + h.currentModel + "]: "
  }

  /** `str(hint)`: icon, call site and suggestion, and the monthly saving when truthy. */
  function HintLine(h: Hint, describe: Suggestion -> string, dollars: real -> string): (line: string)
    ensures |line| >= |LineHead(h)| + |describe(h.suggestion)|
    ensures line[..|LineHead(h)|] == LineHead(h)
    ensures line[|LineHead(h)|..|LineHead(h)| + |describe(h.suggestion)|] == describe(h.suggestion)
    ensures ShowsSavings(h) ==> line[|LineHead(h)| + |describe(h.suggestion)|..] == " (~$" + dollars(h.monthlySavings.value) + "/month)"
    ensures !ShowsSavings(h) ==> |line| == |LineHead(h)| + |describe(h.suggestion)|
  {
    LineHead(h) + describe(h.suggestion) + if ShowsSavings(h) then " (~$" + dollars(h.monthlySavings.value) + "/month)" else ""
  }

  /** Only a switch hint with a non-zero saving shows a saving, among generated hints. */
  lemma SavingsOnlyOnSwitch(book: PriceBook, rs: seq<CallRecord>, callsPerMinute: real)
    requires rs != [] && HintsWith(book, rs, callsPerMinute).Ok?
    ensures forall h :: h in HintsWith(book, rs, callsPerMinute).value ==>
              (ShowsSavings(h) <==> h.suggestion.SwitchModel? && SavingsOrZero(h) != 0.0)
  {
    HintsContents(book, rs, callsPerMinute);
    var ss := Sites(book, rs, callsPerMinute);
    forall h | h in HintsWith(book, rs, callsPerMinute).value
      ensures h.monthlySavings.Some? <==> h.suggestion.SwitchModel?
    {
      var i :| 0 <= i < |ss| && SiteHints(ss[i]).Ok? && h in SiteHints(ss[i]).value;
    }
  }

  function HintLines(hs: seq<Hint>, describe: Suggestion -> string, dollars: real -> string): (ls: seq<string>)
    ensures |ls| == |hs| && forall i :: 0 <= i < |hs| ==> ls[i] == HintLine(hs[i], describe, dollars)
  {
    seq(|hs|, i requires 0 <= i < |hs| => HintLine(hs[i], describe, dollars))
  }

  /** `sep.join(parts)` */
  function Join(parts: seq<string>, sep: string): string {
    if parts == [] then ""
    else if |parts| == 1 then parts[0]
    else Join(parts[..|parts| - 1], sep) + sep + parts[|parts| - 1]
  }

  lemma {:induction false} JoinConcat(a: seq<string>, b: seq<string>, sep: string)
    requires a != [] && b != []
    ensures Join(a + b, sep) == Join(a, sep) + sep + Join(b, sep)
  {
    var ab := a + b;
    if |b| == 1 {
      assert ab[..|ab| - 1] == a && ab[|ab| - 1] == b[0];
      assert Join(ab, sep) == Join(a, sep) + sep + b[0];
    } else {
      var p := b[..|b| - 1];
      assert ab[..|ab| - 1] == a + p && ab[|ab| - 1] == b[|b| - 1];
      JoinConcat(a, p, sep);
      assert Join(ab, sep) == Join(a + p, sep) + sep + b[|b| - 1];
      assert Join(b, sep) == Join(p, sep) + sep + b[|b| - 1];
    }
  }

  lemma HintLinesAppend(hs: seq<Hint>, i: nat, describe: Suggestion -> string, dollars: real -> string)
    requires i < |hs|
    ensures HintLines(hs[..i + 1], describe, dollars) == HintLines(hs[..i], describe, dollars) + [HintLine(hs[i], describe, dollars)]
  {
    var l, r := HintLines(hs[..i + 1], describe, dollars), HintLines(hs[..i], describe, dollars) + [HintLine(hs[i], describe, dollars)];
    assert |l| == |r|;
    forall j | 0 <= j < |l| ensures l[j] == r[j] {
      assert hs[..i + 1][j] == hs[j];
    }
  }

  /** The heading, the lines and the final empty line, joined by newlines. */
  lemma {:induction false} RenderJoin(body: seq<string>)
    requires body != []
    ensures Join(["", "Optimization hints:"] + body + [""], "\n") == "\nOptimization hints:\n" + Join(body, "\n") + "\n"
  {
    var head, title, j := ["", "Optimization hints:"], "Optimization hints:", Join(body, "\n");
    assert head[..1] == [""];
    assert Join(head, "\n") == "\n" + title;
    JoinConcat(head, body, "\n");
    JoinConcat(head + body, [""], "\n");
    assert Join(head + body + [""], "\n") == ("\n" + title) + "\n" + j + "\n" + "";
    assert "\n" + title + "\n" == "\nOptimization hints:\n";
  }

  /** `render_hints(hints)`: nothing for no hints, else a heading, one line per hint and a final newline. */
  method RenderHints(hints: seq<Hint>, describe: Suggestion -> string, dollars: real -> string) returns (text: string)
    ensures hints == [] <==> text == ""
    ensures hints != [] ==> text == "\nOptimization hints:\n" + Join(HintLines(hints, describe, dollars), "\n") + "\n"
  {
    if hints == [] {
      return "";
    }
    var lines := ["", "Optimization hints:"];
    for i := 0 to |hints|
      invariant lines == ["", "Optimization hints:"] + HintLines(hints[..i], describe, dollars)
    {
      HintLinesAppend(hints, i, describe, dollars);
      lines := lines + [HintLine(hints[i], describe, dollars)];
    }
    assert hints[..|hints|] == hints;
    lines := lines + [""];
    text := Join(lines, "\n");
    RenderJoin(HintLines(hints, describe, dollars));
  }
}
