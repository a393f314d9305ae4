/**
 * The built-in price table (USD per million tokens) and the lookup that turns a
 * model name and two token counts into a cost: exact key first, then the first
 * table entry, in table order, whose key is a prefix of the name or has the name
 * as a prefix; unknown models cost nothing.
 */
module Pricing {
  import opened Results
  import opened Sorting

  /** (input USD per 1M tokens, output USD per 1M tokens) */
  type Price = (real, real)

  /** `PRICING`, in the dict's insertion order. */
  const PRICING: seq<(string, Price)> := [
    ("claude-opus-4-6",            (15.00, 75.00)),
    ("claude-opus-4-5",            (15.00, 75.00)),
    ("claude-sonnet-4-6",          ( 3.00, 15.00)),
    ("claude-sonnet-4-5",          ( 3.00, 15.00)),
    ("claude-haiku-4-5",           ( 0.80,  4.00)),
    ("claude-haiku-4-5-20251001",  ( 0.80,  4.00)),
    ("claude-3-5-sonnet-20241022", ( 3.00, 15.00)),
    ("claude-3-5-haiku-20241022",  ( 0.80,  4.00)),
    ("claude-3-opus-20240229",     (15.00, 75.00)),
    ("claude-3-sonnet-20240229",   ( 3.00, 15.00)),
    ("claude-3-haiku-20240307",    ( 0.25,  1.25)),
    ("gpt-4o",                     ( 2.50, 10.00)),
    ("gpt-4o-2024-11-20",          ( 2.50, 10.00)),
    ("gpt-4o-mini",                ( 0.15,  0.60)),
    ("gpt-4o-mini-2024-07-18",     ( 0.15,  0.60)),
    ("o1",                         (15.00, 60.00)),
    ("o1-mini",                    ( 3.00, 12.00)),
    ("o3-mini",                    ( 1.10,  4.40)),
    ("gpt-4-turbo",                (10.00, 30.00)),
    ("gpt-4",                      (30.00, 60.00)),
    ("gpt-3.5-turbo",              ( 0.50,  1.50)),
    ("gemini-1.5-pro",             ( 1.25,  5.00)),
    ("gemini-1.5-flash",           ( 0.075, 0.30)),
    ("gemini-1.5-flash-8b",        ( 0.0375, 0.15)),
    ("gemini-2.0-flash-exp",       ( 0.075, 0.30)),
    ("gemini-2.0-flash",           ( 0.10,  0.40)),
    ("llama-3.1-70b-instruct",     ( 0.88,  0.88)),
    ("llama-3.1-8b-instruct",      ( 0.20,  0.20)),
    ("mistral-large-latest",       ( 2.00,  6.00)),
    ("mistral-small-latest",       ( 0.20,  0.60))
  ]

  /** `CHEAPER_ALTERNATIVES`: model -> the cheaper model the optimizer suggests. */
  const CHEAPER_ALTERNATIVES: map<string, string> := map[
    "claude-opus-4-6"            := "claude-sonnet-4-6",
    "claude-opus-4-5"            := "claude-sonnet-4-5",
    "claude-sonnet-4-6"          := "claude-haiku-4-5",
    "claude-sonnet-4-5"          := "claude-haiku-4-5",
    "claude-3-5-sonnet-20241022" := "claude-3-5-haiku-20241022",
    "claude-3-opus-20240229"     := "claude-3-sonnet-20240229",
    "gpt-4o"                     := "gpt-4o-mini",
    "gpt-4-turbo"                := "gpt-4o",
    "gpt-4"                      := "gpt-4o",
    "o1"                         := "o3-mini",
    "gemini-1.5-pro"             := "gemini-1.5-flash"
  ]

  // ---------------------------------------------------------------------------
  // Case folding (ASCII letters only) and the table search.

  function LowerChar(c: char): char {
    if 'A' <= c <= 'Z' then (c as int + 32) as char else c
  }

  /** `str.lower()` restricted to ASCII: each upper-case letter becomes lower case. */
  function Lower(s: string): (r: string)
    ensures |r| == |s|
    ensures forall i :: 0 <= i < |s| ==> r[i] == LowerChar(s[i])
  {
    seq(|s|, i requires 0 <= i < |s| => LowerChar(s[i]))
  }

  /** Lower-casing twice is lower-casing once. */
  lemma LowerIdempotent(s: string)
    ensures Lower(Lower(s)) == Lower(s)
  {
    assert forall i :: 0 <= i < |s| ==> LowerChar(LowerChar(s[i])) == LowerChar(s[i]);
  }

  /** `model.startswith(key) or key.startswith(model)`. */
  predicate PrefixRelated(model: string, key: string) {
    key <= model || model <= key
  }

  /** The first entry of the table whose key is exactly the name. */
  function ExactIndex(table: seq<(string, Price)>, name: string): (r: Option<nat>)
    ensures r.Some? ==> r.value < |table| && table[r.value].0 == name
    ensures r.Some? ==> forall j :: 0 <= j < r.value ==> table[j].0 != name
    ensures r.None? ==> forall j :: 0 <= j < |table| ==> table[j].0 != name
  {
    if table == [] then None
    else if table[0].0 == name then Some(0)
    else
      match ExactIndex(table[1..], name)
      case None => None
      case Some(i) => Some(i + 1)
  }

  /** The first entry of the table whose key is prefix-related to the name. */
  function PrefixIndex(table: seq<(string, Price)>, name: string): (r: Option<nat>)
    ensures r.Some? ==> r.value < |table| && PrefixRelated(name, table[r.value].0)
    ensures r.Some? ==> forall j :: 0 <= j < r.value ==> !PrefixRelated(name, table[j].0)
    ensures r.None? ==> forall j :: 0 <= j < |table| ==> !PrefixRelated(name, table[j].0)
  {
    if table == [] then None
    else if PrefixRelated(name, table[0].0) then Some(0)
    else
      match PrefixIndex(table[1..], name)
      case None => None
      case Some(i) => Some(i + 1)
  }

  /**
   * `_lookup(model_lower)` over a price table: the entry whose key equals the name
   * wins; otherwise the first entry in table order that is prefix-related to the
   * name; otherwise nothing.
   */
  function LookupIn(table: seq<(string, Price)>, name: string): (r: Option<Price>)
    ensures r.Some? <==> exists i :: 0 <= i < |table| && PrefixRelated(name, table[i].0)
    ensures r.Some? ==> exists i :: 0 <= i < |table| && r.value == table[i].1
    ensures forall i :: 0 <= i < |table| && table[i].0 == name && (forall j :: 0 <= j < i ==> table[j].0 != name) ==>
              r == Some(table[i].1)
    ensures (forall i :: 0 <= i < |table| ==> table[i].0 != name) ==>
              forall i :: (0 <= i < |table| && PrefixRelated(name, table[i].0) &&
                           (forall j :: 0 <= j < i ==> !PrefixRelated(name, table[j].0))) ==>
                r == Some(table[i].1)
  {
    match ExactIndex(table, name)
    case Some(i) =>
      assert PrefixRelated(name, table[i].0);
      Some(table[i].1)
    case None =>
      match PrefixIndex(table, name)
      case Some(i) => Some(table[i].1)
      case None => None
  }

  /** `_lookup` over the built-in table. */
  function Lookup(modelLower: string): Option<Price> {
    LookupIn(PRICING, modelLower)
  }

  // ---------------------------------------------------------------------------
  // The public functions of the pricing module.

  /** The cost in USD of a call at a given price per million tokens. */
  function CostAt(price: Price, inputTokens: int, outputTokens: int): real {
    (inputTokens as real * price.0 + outputTokens as real * price.1) / 1000000.0
  }

  /** `calculate(model, input_tokens, output_tokens)`: unknown models cost nothing. */
  function Calculate(model: string, inputTokens: int, outputTokens: int): (cost: real)
    ensures Lookup(Lower(model)).None? ==> cost == 0.0
    ensures Lookup(Lower(model)).Some? ==> cost == CostAt(Lookup(Lower(model)).value, inputTokens, outputTokens)
  {
    var p := Lookup(Lower(model));
    if p.None? then 0.0 else CostAt(p.value, inputTokens, outputTokens)
  }

  /** `get_cheaper_alternative(model)`: exact lower-case key only. */
  function CheaperAlternative(model: string): (alt: Option<string>)
    ensures alt.Some? <==> Lower(model) in CHEAPER_ALTERNATIVES
    ensures alt.Some? ==> alt.value == CHEAPER_ALTERNATIVES[Lower(model)]
  {
    if Lower(model) in CHEAPER_ALTERNATIVES then Some(CHEAPER_ALTERNATIVES[Lower(model)]) else None
  }

  /**
   * `get_price_per_million(model)`: a price exactly when some table key is
   * prefix-related to the lower-cased name, and then one of the table's prices.
   */
  function PricePerMillion(model: string): (p: Option<Price>)
    ensures p == Lookup(Lower(model))
    ensures p.Some? <==> exists i :: 0 <= i < |PRICING| && PrefixRelated(Lower(model), PRICING[i].0)
    ensures p.Some? ==> exists i :: 0 <= i < |PRICING| && p.value == PRICING[i].1
  {
    Lookup(Lower(model))
  }

  /** The table keys in table order. */
  function TableKeys(): (ks: seq<string>)
    ensures |ks| == |PRICING|
    ensures forall i :: 0 <= i < |PRICING| ==> ks[i] == PRICING[i].0
  {
    seq(|PRICING|, i requires 0 <= i < |PRICING| => PRICING[i].0)
  }

  /** Python's string order: lexicographic by code point, a proper prefix first. */
  function StrLe(a: string, b: string): bool {
    if a == [] then true
    else if b == [] then false
    else if a[0] != b[0] then a[0] < b[0]
    else StrLe(a[1..], b[1..])
  }

  lemma {:induction false} StrLeTotalAt(a: string, b: string)
    ensures StrLe(a, b) || StrLe(b, a)
  {
    if a != [] && b != [] && a[0] == b[0] {
      StrLeTotalAt(a[1..], b[1..]);
    }
  }

  lemma StrLeTotal()
    ensures Total(StrLe)
  {
    forall a, b ensures StrLe(a, b) || StrLe(b, a) {
      StrLeTotalAt(a, b);
    }
  }

  /** `list_models()`: the table keys, each once, in ascending string order. */
  function ListModels(): (r: seq<string>)
    ensures Sorted(r, StrLe)
    ensures multiset(r) == multiset(TableKeys())
  {
    StrLeTotal();
    SortBy(TableKeys(), StrLe)
  }

  // ---------------------------------------------------------------------------
  // Properties.

  /** Matching ignores case: a name and its lower-case form cost the same. */
  lemma CaseInsensitive(model: string, inputTokens: int, outputTokens: int)
    ensures Calculate(model, inputTokens, outputTokens) == Calculate(Lower(model), inputTokens, outputTokens)
    ensures CheaperAlternative(model) == CheaperAlternative(Lower(model))
    ensures PricePerMillion(model) == PricePerMillion(Lower(model))
  {
    LowerIdempotent(model);
  }

  /** No tokens, no cost, whatever the model. */
  lemma ZeroTokensCostNothing(model: string)
    ensures Calculate(model, 0, 0) == 0.0
  {
  }

  /** Every table price is non-negative. */
  lemma PricesNonNegative()
    ensures forall i :: 0 <= i < |PRICING| ==> PRICING[i].1.0 >= 0.0 && PRICING[i].1.1 >= 0.0
  {
  }

  /** At a non-negative price, non-negative token counts cost a non-negative amount. */
  lemma CostAtNonNegative(price: Price, inputTokens: nat, outputTokens: nat)
    requires price.0 >= 0.0 && price.1 >= 0.0
    ensures CostAt(price, inputTokens, outputTokens) >= 0.0
  {
    assert inputTokens as real * price.0 >= 0.0;
    assert outputTokens as real * price.1 >= 0.0;
  }

  /** With non-negative token counts the cost is never negative. */
  lemma CostNonNegative(model: string, inputTokens: nat, outputTokens: nat)
    ensures Calculate(model, inputTokens, outputTokens) >= 0.0
  {
    var p := Lookup(Lower(model));
    if p.Some? {
      PricesNonNegative();
      var i :| 0 <= i < |PRICING| && p.value == PRICING[i].1;
      CostAtNonNegative(p.value, inputTokens, outputTokens);
    }
  }

  /** Cost is linear in the token counts at any price. */
  lemma CostAtAdditive(price: Price, in1: int, out1: int, in2: int, out2: int)
    ensures CostAt(price, in1 + in2, out1 + out2) == CostAt(price, in1, out1) + CostAt(price, in2, out2)
  {
    assert (in1 + in2) as real * price.0 == in1 as real * price.0 + in2 as real * price.0;
    assert (out1 + out2) as real * price.1 == out1 as real * price.1 + out2 as real * price.1;
  }

  /** Cost is additive in the token counts: two calls cost what one combined call costs. */
  lemma CostAdditive(model: string, in1: int, out1: int, in2: int, out2: int)
    ensures Calculate(model, in1 + in2, out1 + out2) == Calculate(model, in1, out1) + Calculate(model, in2, out2)
  {
    var p := Lookup(Lower(model));
    if p.Some? {
      CostAtAdditive(p.value, in1, out1, in2, out2);
    }
  }

  /** Entry j is the listed alternative of the model at entry i, at no higher price. */
  predicate CheaperEntry(m: string, i: nat, j: nat) {
    i < |PRICING| && j < |PRICING| && PRICING[i].0 == m &&
    m in CHEAPER_ALTERNATIVES && PRICING[j].0 == CHEAPER_ALTERNATIVES[m] &&
    PRICING[j].1.0 <= PRICING[i].1.0 && PRICING[j].1.1 <= PRICING[i].1.1
  }

  /** The alternatives suggested for the Claude 4 Opus models. */
  lemma OpusAlternatives()
    ensures CheaperEntry("claude-opus-4-6", 0, 2)
    ensures CheaperEntry("claude-opus-4-5", 1, 3)
  {
  }

  /** The alternatives suggested for the other Anthropic models. */
  lemma AnthropicAlternatives()
    ensures CheaperEntry("claude-sonnet-4-6", 2, 4)
    ensures CheaperEntry("claude-sonnet-4-5", 3, 4)
    ensures CheaperEntry("claude-3-5-sonnet-20241022", 6, 7)
    ensures CheaperEntry("claude-3-opus-20240229", 8, 9)
  {
  }

  /** The alternatives suggested for OpenAI and Google models. */
  lemma OtherAlternatives()
    ensures CheaperEntry("gpt-4o", 11, 13)
    ensures CheaperEntry("gpt-4-turbo", 18, 11)
    ensures CheaperEntry("gpt-4", 19, 11)
    ensures CheaperEntry("o1", 15, 17)
    ensures CheaperEntry("gemini-1.5-pro", 21, 22)
  {
  }

  /**
   * A model with a suggested alternative has a table entry, and so does the
   * alternative, priced no higher for input or for output tokens.
   */
  lemma AlternativeIsCheaper(m: string)
    requires m in CHEAPER_ALTERNATIVES
    ensures exists i, j :: CheaperEntry(m, i, j)
  {
    OpusAlternatives();
    AnthropicAlternatives();
    OtherAlternatives();
    if m == "claude-opus-4-6" {
      assert CheaperEntry(m, 0, 2);
    } else if m == "claude-opus-4-5" {
      assert CheaperEntry(m, 1, 3);
    } else if m == "claude-sonnet-4-6" {
      assert CheaperEntry(m, 2, 4);
    } else if m == "claude-sonnet-4-5" {
      assert CheaperEntry(m, 3, 4);
    } else if m == "claude-3-5-sonnet-20241022" {
      assert CheaperEntry(m, 6, 7);
    } else if m == "claude-3-opus-20240229" {
      assert CheaperEntry(m, 8, 9);
    } else if m == "gpt-4o" {
      assert CheaperEntry(m, 11, 13);
    } else if m == "gpt-4-turbo" {
      assert CheaperEntry(m, 18, 11);
    } else if m == "gpt-4" {
      assert CheaperEntry(m, 19, 11);
    } else if m == "o1" {
      assert CheaperEntry(m, 15, 17);
    } else if m == "gemini-1.5-pro" {
      assert CheaperEntry(m, 21, 22);
    }
  }

  /** Two names that differ in their first character are not prefix-related. */
  lemma FirstCharUnrelated(name: string, key: string)
    requires name != [] && key != [] && name[0] != key[0]
    ensures !PrefixRelated(name, key)
  {
  }

  /** A key equal to the name gives the price; keys before it with another first letter are skipped. */
  lemma ExactEntryPrice(table: seq<(string, Price)>, name: string, i: nat)
    requires i < |table| && name != [] && table[i].0 == name
    requires forall j :: 0 <= j < i ==> table[j].0 != [] && table[j].0[0] != name[0]
    ensures LookupIn(table, name) == Some(table[i].1)
  {
    assert forall j :: 0 <= j < i ==> table[j].0 != name;
  }

  /** An exact key is priced from its own entry. */
  lemma ExactKeyExample()
    ensures Lookup("gpt-4o") == Some((2.50, 10.00))
  {
    LeadingKeyLetters();
    ExactEntryPrice(PRICING, "gpt-4o", 11);
  }

  /** No key of the table is the given dated name. */
  lemma DatedNamesHaveNoEntry(name: string)
    requires name == "gpt-4o-2024-05-13" || name == "o1-mini-2024-09-12"
    ensures forall j :: 0 <= j < |PRICING| ==> PRICING[j].0 != name
  {
    assert forall j :: 0 <= j < 11 ==> PRICING[j].0 != name;
    assert forall j :: 11 <= j < 20 ==> PRICING[j].0 != name;
  }

  /** The first eleven keys are Anthropic models, the next four OpenAI GPT-4o models. */
  lemma LeadingKeyLetters()
    ensures forall j :: 0 <= j < 11 ==> PRICING[j].0 != [] && PRICING[j].0[0] == 'c'
    ensures forall j :: 11 <= j < 15 ==> PRICING[j].0 != [] && PRICING[j].0[0] == 'g'
  {
    assert forall j :: 0 <= j < 6 ==> PRICING[j].0 != [] && PRICING[j].0[0] == 'c';
  }

  /** No key starts with the letter u. */
  lemma NoKeyStartsWithU()
    ensures forall j :: 0 <= j < |PRICING| ==> PRICING[j].0 != [] && PRICING[j].0[0] != 'u'
  {
    LeadingKeyLetters();
    assert forall j :: 15 <= j < 22 ==> PRICING[j].0 != [] && PRICING[j].0[0] != 'u';
  }

  /**
   * When no key equals the name, the first prefix-related entry gives the price;
   * keys whose first letter differs from the name's are skipped.
   */
  lemma PrefixEntryPrice(table: seq<(string, Price)>, name: string, i: nat)
    requires i < |table| && name != []
    requires forall j :: 0 <= j < |table| ==> table[j].0 != name
    requires forall j :: 0 <= j < i ==> table[j].0 != [] && table[j].0[0] != name[0]
    requires PrefixRelated(name, table[i].0)
    ensures LookupIn(table, name) == Some(table[i].1)
  {
    forall j | 0 <= j < i ensures !PrefixRelated(name, table[j].0) {
      FirstCharUnrelated(name, table[j].0);
    }
  }

  /** A dated name with no entry of its own takes the price of its base model. */
  lemma DatedNameExample()
    ensures Lookup("gpt-4o-2024-05-13") == Some((2.50, 10.00))
  {
    DatedNamesHaveNoEntry("gpt-4o-2024-05-13");
    LeadingKeyLetters();
    PrefixEntryPrice(PRICING, "gpt-4o-2024-05-13", 11);
  }

  /**
   * The prefix scan takes the first related key in table order, not the longest:
   * "o1" (15, 60) stands before "o1-mini" (3, 12), so a dated o1-mini name is
   * priced as o1.
   */
  lemma FirstPrefixWinsExample()
    ensures Lookup("o1-mini-2024-09-12") == Some((15.00, 60.00))
  {
    DatedNamesHaveNoEntry("o1-mini-2024-09-12");
    LeadingKeyLetters();
    PrefixEntryPrice(PRICING, "o1-mini-2024-09-12", 15);
  }

  /** A name related to no key costs nothing. */
  lemma UnknownModelExample()
    ensures Lookup("unknown-model-xyz") == None
  {
    var name := "unknown-model-xyz";
    NoKeyStartsWithU();
    forall j | 0 <= j < |PRICING| ensures !PrefixRelated(name, PRICING[j].0) {
      FirstCharUnrelated(name, PRICING[j].0);
    }
  }
}
