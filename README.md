# tokenspy / llmspy cost profiler — a Dafny model

This project models the deterministic bookkeeping of the `tokenspy` (also
published as `llmspy`) LLM cost profiler:

- **Pricing** (`pricing.dfy`). The built-in price table and its lookup:
  - the name is lower-cased;
  - an exact key is tried first;
  - otherwise the first key, in table order, that is a prefix of the name or has
    the name as a prefix;
  - otherwise the model is unknown and costs nothing.

  Also modelled: the cheaper-alternative table, `get_price_per_million` and the
  sorted `list_models`.
- **Call records and the tracker** (`records.dfy`, `tracker.dfy`).
  - The `CallRecord` that every provider hook builds.
  - The sums and the grouping by key that the reports use.
  - The `Tracker`, as a class holding an append-only sequence of records. It may
    be bound to a durable store (the SQLite file, as an abstract row sequence).
- **Attribution slot and interceptor** (`attribution.dfy`, `interceptor.dfy`).
  - The one-element `_current_function` list, shared by reference with every
    installed hook.
  - The `_active` flag and the global tracker.
  - `activate`/`deactivate`, which patch and unpatch the providers.
- **Provider hooks** (`openai_provider.dfy`, `google_provider.dfy`).
  - The `_patched` flag and the saved originals, as state machines.
  - The construction of a usage record from a response (OpenAI `usage`, Google
    `usage_metadata`).
  - The Google model-name stripping (the text after the last `/`).
- **Profiler** (`profiler.dfy`).
  - The `@profile` wrapper, which saves, sets and restores the current function.
  - The `Session` context manager.
  - `init`'s choice of database path.
- **Reports** (`flamegraph.dfy`). The aggregation behind `render_text` and
  `render_html`:
  - grouping by function and by model;
  - per-group sums and the descending cost ranking;
  - percentages with the zero-total guard;
  - `_bar` and `_cost_color`;
  - the empty-ledger sentinels.
- **Optimizer** (`optimizer.dfy`). `generate_hints`:
  - grouping by (function, model) and the per-group averages and monthly figures;
  - the four rules with their severities;
  - the `ZeroDivisionError` of rule 1;
  - the final ordering by severity, then by savings.

  Also modelled: `Hint.__str__`'s savings suffix and `render_hints`.

`sorting.dfy` holds Python's stable `sorted` as an insertion sort, and
`results.dfy` holds `Option` and the `Ok`/`Raised` outcome of a Python call.

Python floats are modelled as exact reals; the tests compare costs with a
tolerance. `int()` on a float is written out as truncation toward zero. The
tracker module (`tokenspy/tracker.py`) is not part of this model. Its `Ledger`
model follows the behaviour that `tests/test_tracker.py` asserts.

The sources ship in two package spellings (`llmspy` for pricing, interceptor and
optimizer, `tokenspy` for the rest); they are treated as one package.

## Model

| member | source | states |
|---|---|---|
| Pricing.Lower | llmspy/pricing.py:72 | lower-casing keeps the length and maps each character through the ASCII case fold |
| Pricing.LowerIdempotent | llmspy/pricing.py:72 | lower-casing an already lower-cased name changes nothing |
| Pricing.ExactIndex | llmspy/pricing.py:92-93 | finds the first table entry whose key equals the name, or reports that no key equals it |
| Pricing.PrefixIndex | llmspy/pricing.py:95-97 | finds the first table entry, in table order, whose key is a prefix of the name or has the name as prefix, or reports that none is |
| Pricing.LookupIn | llmspy/pricing.py:90-98 | a price is found iff some key is prefix-related to the name; the price is a table price; an exactly matching key's entry wins over any earlier prefix match; with no exact key the first prefix-related entry wins |
| Pricing.Calculate | llmspy/pricing.py:70-77 | an unknown model costs 0; a known one costs (input × input price + output × output price) / 1 000 000 at its looked-up price |
| Pricing.CheaperAlternative | llmspy/pricing.py:80-82 | an alternative exists iff the lower-cased name is an exact key of the alternatives table, and it is that key's value |
| Pricing.PricePerMillion | llmspy/pricing.py:85-87 | a price exactly when some table key is prefix-related to the lower-cased name, and then one of the table's prices |
| Pricing.TableKeys | llmspy/pricing.py:11-51 | the table keys, in table order |
| Pricing.StrLeTotal | llmspy/pricing.py:101-103 | Python string comparison orders any two names one way or the other |
| Pricing.ListModels | llmspy/pricing.py:101-103 | the model list is sorted and holds exactly the table keys, each as often as in the table |
| Pricing.CaseInsensitive | tests/test_pricing.py:48-52 | cost, alternative and per-million price are the same for a name and its lower-cased form |
| Pricing.ZeroTokensCostNothing | tests/test_pricing.py:33-34 | zero tokens cost nothing, for any model |
| Pricing.PricesNonNegative | llmspy/pricing.py:11-51 | every table price is non-negative |
| Pricing.CostAtNonNegative | llmspy/pricing.py:76-77 | non-negative token counts at non-negative prices cost a non-negative amount |
| Pricing.CostNonNegative | llmspy/pricing.py:70-77 | with non-negative token counts the cost is never negative |
| Pricing.CostAtAdditive | llmspy/pricing.py:76-77 | the cost at a price is linear in the two token counts |
| Pricing.CostAdditive | llmspy/pricing.py:70-77 | two calls to a model cost what one call with the summed token counts costs |
| Pricing.OpusAlternatives | llmspy/pricing.py:55-57 | the Claude 4 Opus models' alternatives are table keys priced no higher |
| Pricing.AnthropicAlternatives | llmspy/pricing.py:58-61 | the other Anthropic models' alternatives are table keys priced no higher |
| Pricing.OtherAlternatives | llmspy/pricing.py:62-66 | the OpenAI and Google models' alternatives are table keys priced no higher |
| Pricing.AlternativeIsCheaper | tests/test_pricing.py:67-72 | every model with an alternative, and its alternative, are table keys, and the alternative costs no more per input or output token |
| Pricing.ExactEntryPrice | llmspy/pricing.py:92-93 | an entry whose key equals the name gives the price, when earlier keys start with another letter |
| Pricing.PrefixEntryPrice | llmspy/pricing.py:95-97 | with no exact key, the first prefix-related entry gives the price, skipping keys that start with another letter |
| Pricing.ExactKeyExample | tests/test_pricing.py:14-21 | "gpt-4o" is priced at 2.50 / 10.00 per million |
| Pricing.DatedNameExample | tests/test_pricing.py:36-40 | the dated name "gpt-4o-2024-05-13" takes gpt-4o's price |
| Pricing.FirstPrefixWinsExample | llmspy/pricing.py:95-97 | "o1-mini-2024-09-12" takes the price of "o1", the first related key, not of the longer "o1-mini" |
| Pricing.UnknownModelExample | tests/test_pricing.py:29-31 | "unknown-model-xyz" has no price |
| Records.SumsAppend | tests/test_tracker.py:39-49 | recording one more call adds its cost, input, output and total tokens to the sums |
| Records.SumCostConcat | tests/test_tracker.py:39-43 | the cost of two batches of records is the sum of their costs |
| Records.SumTokensSplit | tests/test_tracker.py:45-49 | total tokens equal input tokens plus output tokens |
| Records.SumCostNonNegative | tests/test_tracker.py:39-43 | records of non-negative cost have a non-negative total cost |
| Records.KeysExactly | llmspy/optimizer.py:50-53 | the grouping dict's keys are distinct and are exactly the keys of the records |
| Records.WhereExactly | llmspy/optimizer.py:50-53 | each key's list holds exactly the records with that key, and a key has an empty list iff it is not a dict key |
| Records.WhereCount | llmspy/optimizer.py:50-53 | each record with key k occurs in k's list as often as in the records, and no record with another key occurs there |
| Records.GroupsAppendRecord | llmspy/optimizer.py:50-53 | appending a record adds its cost and one call to its own group only |
| Records.GroupsPartition | llmspy/optimizer.py:50-53 | every record falls in exactly one group: group costs sum to the total and group sizes to the record count |
| Sorting.Insert | tokenspy/flamegraph.py:42 | inserting into a sorted sequence keeps it sorted and adds exactly the one element |
| Sorting.SortBy | tokenspy/flamegraph.py:42 | the sorted sequence is ordered and a permutation of the input |
| Sorting.InsertTies | tokenspy/flamegraph.py:42 | inserting an element puts it in front of every element tied with it, leaving the other ties in order |
| Sorting.SortByStable | tokenspy/flamegraph.py:42 | the sort is stable: for any element, the elements tied with it appear in the same relative order as in the input |
| Sorting.SortedAllPairs | tokenspy/flamegraph.py:42 | for a transitive order, sorted neighbours mean every pair is in order |
| Attribution.FunctionSlot.constructor | llmspy/interceptor.py:15 | the slot initially holds just "<unknown>" |
| Attribution.FunctionSlot.Current | llmspy/interceptor.py:59-60 | the current function is the slot's first element |
| Attribution.FunctionSlot.Set | llmspy/interceptor.py:54-56 | setting replaces only the slot's head, in place, and the new head is the name |
| Attribution.HeadOrUnknown | tokenspy/providers/openai.py:112 | the slot's head, or "<unknown>" for an empty slot |
| Attribution.CountOrZero | tokenspy/providers/openai.py:108-109 | an absent or None token count reads as 0 |
| Attribution.Emitted | tokenspy/providers/openai.py:104-106 | a hook appends no record without usage and exactly its one record otherwise |
| Tracker.Store.Missing | tests/test_tracker.py:138-144 | a path with no file yet has no rows |
| Tracker.Store.LoadAll | tests/test_tracker.py:138-144 | loading a file that was never written gives no records; otherwise its rows in order |
| Tracker.CostBy | tests/test_tracker.py:64-79 | cost_by_function / cost_by_model have a key for every recorded name and map it to the summed cost of its records |
| Tracker.Ledger.constructor | tests/test_tracker.py:25-30 | a fresh tracker holds no records and no store |
| Tracker.Ledger.Persistent | tests/test_tracker.py:131-136 | binding a path creates the file and its directories, keeping existing rows |
| Tracker.Ledger.Record | tests/test_tracker.py:25-37 | the record is appended at the end, and a bound store receives it too |
| Tracker.Ledger.Reset | tests/test_tracker.py:57-62 | after reset there are no records, so the total cost is 0 |
| Tracker.Ledger.LoadFromStore | tests/test_tracker.py:117-144 | loading gives the persisted rows, or nothing without a bound or existing file |
| Tracker.Ledger.TotalTokens | tests/test_tracker.py:45-49 | total tokens are the input tokens plus the output tokens of all records |
| Tracker.Ledger.Summary | tests/test_tracker.py:81-91 | the summary's calls are the records and its call count their number; its tokens are input plus output; its per-function and per-model maps map each recorded key to the summed cost of its records; its total cost is both the sum of the per-function and of the per-model costs |
| Tracker.RecordFromWorkers | tests/test_tracker.py:93-113 | workers × perWorker record calls, run in turn, add exactly that many records |
| Tracker.PersistAndReload | tests/test_tracker.py:117-129 | a record written through one tracker is loaded back by a fresh tracker on the same file |
| Interceptor.Globals.constructor | llmspy/interceptor.py:15-18 | at start nothing is patched, nothing is active and the slot reads "<unknown>" |
| Interceptor.Globals.CurrentFunction | llmspy/interceptor.py:59-60 | the current function is the slot's single element |
| Interceptor.Globals.SetCurrentFunction | llmspy/interceptor.py:54-56 | after setting, the current function is the name |
| Interceptor.Globals.Activate | llmspy/interceptor.py:21-36 | afterwards interception is active and a further activate changes no hook; None means the global tracker; a provider already patched, or without its SDK, is left exactly as it was; otherwise its originals (OpenAI's async `create` only when that class exists) are saved and wrapped with that tracker and the shared slot |
| Interceptor.Globals.Deactivate | llmspy/interceptor.py:39-51 | afterwards nothing is active or patched; every patched SDK method, OpenAI's sync and async `create` and Google's `generate_content`, is its saved original again, whoever activated; unpatched ones are unchanged |
| Interceptor.Globals.SetGlobalTracker | tokenspy/profiler.py:125 | the global tracker becomes the given one and the active flag is unchanged |
| Interceptor.ActivateTwice | llmspy/interceptor.py:32-34 | a second activate, even with another tracker, leaves the hooks as the first one installed them |
| Interceptor.ActivateDeactivate | llmspy/interceptor.py:21-51 | activate then deactivate leaves every SDK method, async `create` included, its own and nothing active |
| Interceptor.RecordsUnderCurrentName | llmspy/interceptor.py:13-16 | after activate, setting the current function makes the next intercepted call record under that name |
| Interceptor.CallThroughHook | tokenspy/providers/openai.py:36-42 | a call through an installed hook appends one record, attributed to the slot's name |
| OpenAIProvider.ModelArgument | tokenspy/providers/openai.py:103 | the model keyword, defaulting to "unknown" |
| OpenAIProvider.UsageRecordFacts | tokenspy/providers/openai.py:91-126 | no record iff there is no usage; otherwise it is attributed to the slot's head (or "<unknown>"), keeps the slot as call stack, provider "openai", the model keyword, absent counts as 0, and the non-negative, case-insensitive price of those counts |
| OpenAIProvider.Patcher.constructor | tokenspy/providers/openai.py:16-18 | a fresh process has nothing patched and the SDK's own methods in place |
| OpenAIProvider.Patcher.Patch | tokenspy/providers/openai.py:21-64 | returns whether the SDK is installed; without it, or when already patched, nothing changes; otherwise the originals are saved and wrapped with the tracker and slot, the async one only when its class exists |
| OpenAIProvider.Patcher.Unpatch | tokenspy/providers/openai.py:67-88 | a no-op when not patched; otherwise the saved originals are restored and forgotten |
| OpenAIProvider.Patcher.Create | tokenspy/providers/openai.py:36-42 | the response is returned unchanged, and an installed wrapper appends what the record builder makes from the slot |
| OpenAIProvider.Patcher.Acreate | tokenspy/providers/openai.py:52-57 | the same for the async wrapper |
| OpenAIProvider.PatchUnpatchRestores | tokenspy/providers/openai.py:34-88 | patch then unpatch puts both SDK methods back and leaves nothing saved |
| OpenAIProvider.SecondPatchKeepsTracker | tokenspy/providers/openai.py:30-31 | a second patch with another tracker returns true and keeps recording into the first |
| GoogleProvider.AfterLastSlash | tokenspy/providers/google.py:79-80 | the result is a slash-free suffix of the name, all of it without a slash, else the text after the last slash |
| GoogleProvider.AfterLastSlashIdempotent | tokenspy/providers/google.py:79-80 | stripping twice is stripping once |
| GoogleProvider.ModelName | tokenspy/providers/google.py:77-80 | a missing model name becomes "unknown"; otherwise its last path segment |
| GoogleProvider.ResourceName | tokenspy/providers/google.py:78-80 | "models/" + name is recorded as name |
| GoogleProvider.AfterLastSlashOfSegment | tokenspy/providers/google.py:79-80 | whatever precedes the last slash is dropped |
| GoogleProvider.UsageRecordFacts | tokenspy/providers/google.py:64-104 | no record iff there is no usage metadata; otherwise it is attributed like OpenAI's, under "google", for the slash-free model name, with absent counts as 0 and their non-negative price |
| GoogleProvider.Patcher.constructor | tokenspy/providers/google.py:16-17 | a fresh process has nothing patched |
| GoogleProvider.Patcher.Patch | tokenspy/providers/google.py:20-43 | returns whether the SDK is installed; no change without it or when already patched; otherwise saves the original and wraps it |
| GoogleProvider.Patcher.Unpatch | tokenspy/providers/google.py:46-61 | a no-op when not patched; otherwise restores and forgets the original |
| GoogleProvider.Patcher.GenerateContent | tokenspy/providers/google.py:34-39 | the response is returned unchanged, and an installed wrapper appends the built record |
| GoogleProvider.PatchUnpatchRestores | tokenspy/providers/google.py:32-61 | patch then unpatch restores the SDK method and leaves nothing saved |
| Profiler.Profile | tokenspy/profiler.py:47-58 | the wrapper's outcome and what the body sees agree with the reference semantics of a call; interception is active afterwards, with every provider not patched before now recording into the global tracker; the slot is back to its value before the call, whether the body returned or raised |
| Profiler.RunBody | tokenspy/profiler.py:53-54 | the body, run with the qualname in the slot, gives the reference outcome and observations, and the nested wrappers' activations change no hook |
| Profiler.RunStep | tokenspy/profiler.py:53-56 | one step of the body keeps the run in agreement with the reference semantics; an uncaught nested raise ends the call with that exception, a caught one lets the body go on with the slot restored |
| Profiler.OutcomeFrom | tokenspy/profiler.py:53-56 | a call's outcome is its function's own or exactly an exception raised by a nested wrapped call |
| Profiler.PassesOutcomeThrough | tests/test_profiler.py:79-93 | without nested wrapped calls the wrapper returns or raises exactly what the function does |
| Profiler.ObservesThroughout | tokenspy/profiler.py:52-54 | a body that only reads the slot sees the same name at every step |
| Profiler.SeesOwnQualname | tests/test_profiler.py:95-105 | while the wrapped function runs, the current function is its qualname |
| Profiler.NestedCallsUnwind | tests/test_profiler.py:107-118 | outer, inner, outer again: nested wrappers restore the outer name |
| Profiler.NestedRaisePropagates | tokenspy/profiler.py:53-56 | an exception in a nested wrapped call that the outer body does not catch ends the outer call with the same exception |
| Profiler.CaughtRaiseResumes | tokenspy/profiler.py:53-56 | when the outer body catches a nested wrapped call's exception, the inner `finally` has restored the outer name, so the outer body next sees its own qualname and ends with its own outcome |
| Profiler.Session.constructor | tokenspy/profiler.py:66-69 | a new session has its own empty tracker and no snapshot |
| Profiler.Session.Enter | tokenspy/profiler.py:71-74 | entering activates with the session's tracker (every provider not patched before records into it) and names the slot after the session |
| Profiler.Session.Exit | tokenspy/profiler.py:76-78 | exiting snapshots the tracker's records and deactivates everything, without restoring the previous name |
| Profiler.Session.Cost | tokenspy/profiler.py:81-83 | before exit, and after it, the cost is the session tracker's total cost |
| Profiler.Session.Tokens | tokenspy/profiler.py:90-91 | likewise the tokens are the tracker's input plus output tokens |
| Profiler.SessionLifecycle | tests/test_profiler.py:124-127 | a session with no call inside costs 0 with 0 calls while open, and after exit its tracker is empty, its cost 0 and its calls 0; its calls are its tracker's records and its cost their sum; the slot still names the session |
| Profiler.StorePath | tokenspy/profiler.py:119-120 | the database is "usage.db" in the given directory when one is given (non-empty), else in ~/.tokenspy |
| Profiler.Init | tokenspy/profiler.py:111-126 | a fresh, empty global tracker, bound to the file at that path only when persisting, installed, and activated so that every provider not patched before (OpenAI and Google) records into it |
| Flamegraph.Trunc | tokenspy/flamegraph.py:96 | `int()` truncates toward zero |
| Flamegraph.Repeat | tokenspy/flamegraph.py:221 | `c * n` is n copies of c, and none for n ≤ 0 |
| Flamegraph.Bar | tokenspy/flamegraph.py:219-221 | the bar is the filled cells followed by empty cells up to the width |
| Flamegraph.FilledBounds | tokenspy/flamegraph.py:220 | for 0 ≤ pct ≤ 100, floor(pct / 100 × width) cells are filled, at most the width |
| Flamegraph.BarShape | tokenspy/flamegraph.py:219-221 | for 0 ≤ pct ≤ 100 the bar has exactly `width` cells, the first floor(pct / 100 × width) filled |
| Flamegraph.CostColor | tokenspy/flamegraph.py:224-232 | red iff above 0.5, orange iff in (0.25, 0.5], yellow iff in (0.1, 0.25], green iff at most 0.1 |
| Flamegraph.ColorMonotone | tokenspy/flamegraph.py:224-232 | a larger share is never drawn in a cooler colour |
| Flamegraph.Pct | tokenspy/flamegraph.py:46 | 0 when the total is 0; otherwise pct × total = cost × 100, between 0 and 100 for a cost within the total |
| Flamegraph.Fraction | tokenspy/flamegraph.py:95 | 0 when the total is 0; otherwise fraction × total = cost, between 0 and 1 for a cost within the total |
| Flamegraph.CallWord | tokenspy/flamegraph.py:32 | "call" iff exactly one call, else "calls" |
| Flamegraph.CostFirstTotal | tokenspy/flamegraph.py:42 | the descending-cost order compares any two rows |
| Flamegraph.CostFirstTransitive | tokenspy/flamegraph.py:42 | the descending-cost order is transitive |
| Flamegraph.Usages | tokenspy/flamegraph.py:41 | one row per key, in the keys' order |
| Flamegraph.ByCost | tokenspy/flamegraph.py:42 | the ranked rows are in non-increasing cost order and a permutation of the rows |
| Flamegraph.ByCostStable | tokenspy/flamegraph.py:42 | rows of equal cost keep their relative order through the ranking |
| Flamegraph.RankingTies | tokenspy/flamegraph.py:37-42 | functions (or models) of equal cost are listed in the order their names first occur in the records |
| Flamegraph.GroupBy | tokenspy/flamegraph.py:37-39 | the `setdefault(...).append` loop yields the keys in first-occurrence order, each mapped to exactly its records in order |
| Flamegraph.Accumulate | tokenspy/flamegraph.py:122-125 | the `model_agg` loop maps each key to the summed cost, input and output tokens of exactly its records |
| Flamegraph.SortByKeys | tokenspy/flamegraph.py:42 | ranking keeps the same keys, each as often |
| Flamegraph.SortByCost | tokenspy/flamegraph.py:42 | ranking keeps the summed cost |
| Flamegraph.RankingRows | tokenspy/flamegraph.py:37-42 | the ranked groups are the distinct keys, each once, each with the usage of exactly its records, in non-increasing cost order, and their costs add up to the total cost |
| Flamegraph.WhereCostBounds | tokenspy/flamegraph.py:41 | with non-negative costs a group costs between 0 and the total |
| Flamegraph.ModelBreakdown | tokenspy/flamegraph.py:51-61 | the inner loops build the per-model lines of one function's records, ranked by cost |
| Flamegraph.RankFunctions | tokenspy/flamegraph.py:37-42 | the records grouped by function and ranked, with each function's records |
| Flamegraph.FunctionLines | tokenspy/flamegraph.py:37-61 | the outer loop builds one line per ranked function with its model breakdown |
| Flamegraph.LinesOf | tokenspy/flamegraph.py:44-61 | the loop over ranked functions builds their lines in that order |
| Flamegraph.RenderText | tokenspy/flamegraph.py:16-64 | the text report is the reference report of the tracker's records |
| Flamegraph.TextReportFacts | tokenspy/flamegraph.py:16-64 | the sentinel text exactly for no records; otherwise the ledger totals, "call" only for one call, and one line per distinct function, most expensive first, each with the cost of exactly its records |
| Flamegraph.TextLinesCoverTotal | tokenspy/flamegraph.py:41-48 | the function lines' costs add up to the total cost |
| Flamegraph.ModelBreakdownFacts | tokenspy/flamegraph.py:51-61 | under a function, one line per distinct model, most expensive first, with the cost and tokens of exactly those records; the model costs add up to the function's cost |
| Flamegraph.TextShares | tokenspy/flamegraph.py:44-61 | with non-negative costs every percentage is between 0 and 100 and every bar is 16 cells |
| Flamegraph.ModelShares | tokenspy/flamegraph.py:56-58 | model percentages are between 0 and 100 and model bars are 16 cells |
| Flamegraph.SingleFunctionGetsAll | tests/test_flamegraph.py:65-70 | a single function with a positive cost gets 100% and a full bar |
| Flamegraph.SvgBars | tokenspy/flamegraph.py:93-111 | one SVG bar per ranked function, in order |
| Flamegraph.ModelRows | tokenspy/flamegraph.py:127-132 | one table row per ranked model, in order |
| Flamegraph.BarsOf | tokenspy/flamegraph.py:91-111 | the bar loop draws each ranked function and ends at y = 40 + 36 × bars |
| Flamegraph.BuildBars | tokenspy/flamegraph.py:80-111 | the bars of the ranked functions, and the final y |
| Flamegraph.BuildModelRows | tokenspy/flamegraph.py:121-132 | the model rows of the ranked per-model aggregates |
| Flamegraph.RenderHtml | tokenspy/flamegraph.py:67-205 | the HTML report is the reference report of the tracker's records |
| Flamegraph.HtmlBars | tokenspy/flamegraph.py:79-111 | the bar names are a permutation of the distinct functions, most expensive first, 36 units apart from y = 40, each with the cost of exactly its records, its fraction of the total cost, a width of int(fraction × 580) and the colour of that fraction |
| Flamegraph.HtmlReportFacts | tokenspy/flamegraph.py:72-113 | the sentinel exactly for no records; otherwise the total cost, input plus output tokens, every call in order, and the bars of HtmlBars in an SVG of height 20 below the last offset |
| Flamegraph.HtmlModelTable | tokenspy/flamegraph.py:121-132 | one row per distinct model, most expensive first, each with that model's summed cost, input and output tokens |
| Flamegraph.HtmlBarWidths | tokenspy/flamegraph.py:95-96 | with non-negative costs every bar is between 0 and 580 wide |
| Optimizer.AverageInput | llmspy/optimizer.py:56 | the average input of a non-empty group is non-negative |
| Optimizer.AverageOutput | llmspy/optimizer.py:57 | the average output of a non-empty group is non-negative |
| Optimizer.MonthlyCost | llmspy/optimizer.py:58-62 | the monthly cost is 0 exactly when the group's cost or the call rate is 0 |
| Optimizer.SavingsSeverity | llmspy/optimizer.py:70 | high iff savings > 100, medium iff in (20, 100], low otherwise |
| Optimizer.SwitchRule | llmspy/optimizer.py:64-82 | a switch hint iff an alternative exists, naming it, with savings = monthly cost − alternative's monthly cost, and the severity of those savings |
| Optimizer.InputRule | llmspy/optimizer.py:84-98 | a trim hint iff average input > 4000, high iff > 10000, else medium, without savings |
| Optimizer.VerboseRule | llmspy/optimizer.py:100-113 | a concision hint iff average output > 2000, low, without savings |
| Optimizer.SmallTaskRule | llmspy/optimizer.py:115-130 | a small-task hint iff average output < 200 and an alternative exists, low, without savings |
| Optimizer.GroupHints | llmspy/optimizer.py:64-130 | raises ZeroDivisionError iff an alternative exists and the monthly cost is 0; otherwise at most 3 hints, all for this call site, only switch hints carrying savings |
| Optimizer.GroupHintKinds | llmspy/optimizer.py:64-82 | a switch hint iff an alternative exists; a small-task hint iff also the average output is below 200 |
| Optimizer.GroupHintSizes | llmspy/optimizer.py:84-113 | a trim hint iff average input > 4000; a concision hint iff average output > 2000 |
| Optimizer.GroupHintSeverities | llmspy/optimizer.py:64-130 | each kind of hint has its rule's severity and savings |
| Optimizer.WhereNonEmpty | llmspy/optimizer.py:50-55 | every call site's group is non-empty, so the averages are defined |
| Optimizer.Sites | llmspy/optimizer.py:55-62 | one call site per (function, model) key, in dict order, each with the figures of its records |
| Optimizer.HintOrderTotal | llmspy/optimizer.py:133-139 | the sort key orders any two hints |
| Optimizer.HintOrderTransitive | llmspy/optimizer.py:133-139 | the sort key's order is transitive |
| Optimizer.BySeverity | llmspy/optimizer.py:133-139 | the sorted hints are in sort-key order and a permutation of the hints |
| Optimizer.BySeverityStable | llmspy/optimizer.py:133-139 | hints with the same sort key keep their relative order |
| Optimizer.RaisedStays | llmspy/optimizer.py:55-77 | once a call site raises, generate_hints raises that error |
| Optimizer.CollectHints | llmspy/optimizer.py:55-130 | the loop over groups gives the hints of the call sites in turn, stopping at the first that raises |
| Optimizer.SiteOfGroup | llmspy/optimizer.py:56-67 | the loop body works out the call site's figures from its records |
| Optimizer.SiteLoop | llmspy/optimizer.py:55-130 | the loop appends each call site's hints, or stops with its error |
| Optimizer.GenerateHints | llmspy/optimizer.py:41-139 | no records give no hints; otherwise the hints are those of the reference definition |
| Optimizer.AllHintsRaise | llmspy/optimizer.py:66-77 | generate_hints raises iff some call site has an alternative and no monthly cost, and then with ZeroDivisionError |
| Optimizer.AllHintsCount | llmspy/optimizer.py:64-130 | at most three hints per call site |
| Optimizer.AllHintsCoverAt | llmspy/optimizer.py:55-130 | each hint of a call site is among the hints |
| Optimizer.AllHintsCover | llmspy/optimizer.py:55-130 | every hint of every call site is among the hints |
| Optimizer.AllHintsFrom | llmspy/optimizer.py:55-130 | every hint comes from some call site |
| Optimizer.SiteFigures | llmspy/optimizer.py:58-65 | a call site's alternative is its model's, and its monthly cost is 0 iff its records cost nothing or the rate is 0 |
| Optimizer.RaisingSite | llmspy/optimizer.py:61-77 | when generate_hints raises, it is ZeroDivisionError from a call site with an alternative whose records cost nothing or whose rate is 0 |
| Optimizer.SiteRaises | llmspy/optimizer.py:61-77 | such a call site makes generate_hints raise ZeroDivisionError |
| Optimizer.HintsOrdered | llmspy/optimizer.py:133-139 | high before medium before low, and within a severity larger savings (None as 0) first |
| Optimizer.HintsContents | llmspy/optimizer.py:47-139 | the sorted hints are exactly the call sites' hints, at most three per call site |
| Optimizer.SiteHintsKept | llmspy/optimizer.py:132-139 | sorting loses no hint of any call site |
| Optimizer.HintsTies | llmspy/optimizer.py:55-139 | hints with the same severity and saving come out in the order they were generated: call site by call site, rules in order |
| Optimizer.HintsNameTheirSite | llmspy/optimizer.py:71-74 | every hint names a (function, model) pair that occurs in the records |
| Optimizer.OneCallSite | tests/test_flamegraph.py:116-131 | one gpt-4o call is one call site with that call's figures and its model's alternative |
| Optimizer.CheaperModelHint | tests/test_flamegraph.py:116-123 | with gpt-4o-mini as gpt-4o's alternative, a paid gpt-4o call gets a hint to switch to it |
| Optimizer.CheaperModelExample | tests/test_flamegraph.py:116-123 | with the built-in tables, a paid gpt-4o call gets a hint to switch to gpt-4o-mini |
| Optimizer.LargeInputHint | tests/test_flamegraph.py:125-131 | a 12000-token average input gets a high trim hint, whatever the tables |
| Optimizer.LargeInputExample | tests/test_flamegraph.py:125-131 | with the built-in tables, a 12000-token average input gets a high trim hint |
| Optimizer.FreeCallRaises | llmspy/optimizer.py:77 | a free gpt-4o call makes generate_hints raise ZeroDivisionError |
| Optimizer.HintLine | llmspy/optimizer.py:31-38 | the line is the head, the suggestion, then " (~$…/month)" exactly when savings are neither None nor 0 |
| Optimizer.SavingsOnlyOnSwitch | llmspy/optimizer.py:32-36 | among generated hints, only a switch hint with non-zero savings shows a savings suffix |
| Optimizer.HintLines | llmspy/optimizer.py:146-147 | one line per hint, in order |
| Optimizer.JoinConcat | llmspy/optimizer.py:149 | joining two non-empty lists is joining each, with the separator between |
| Optimizer.RenderJoin | llmspy/optimizer.py:145-149 | the empty first line, heading, lines and empty last line join to the heading, the lines and a final newline |
| Optimizer.RenderHints | llmspy/optimizer.py:142-149 | "" iff no hints; otherwise "\nOptimization hints:\n", the hint lines joined by newlines, and "\n" |

## Left out

- The Anthropic provider (`llmspy/providers/anthropic.py`) is not part of this model. `Activate`/`Deactivate` patch and unpatch only the OpenAI and Google providers.
- The tracker module itself is not part of this model. `Tracker.Ledger` follows the assertions of `tests/test_tracker.py`. The SQLite file and the creation of its directories are an abstract `Store` with a `created` flag and a row sequence.
- Thread safety and the tracker's lock: the five-thread test is modelled as its records recorded one after another (`Tracker.RecordFromWorkers`).
- HTML and SVG document assembly, `html.escape`, the `label[:25]` cut, number formatting (`:.4f`, `:,`, `:.0f`) and the fixed text of the hints' suggestions. The reports are modelled as structured lines and bars. `Optimizer.HintLine` and `Optimizer.RenderHints` take the suggestion text and the dollar formatting as parameters (`describe`, `dollars`).
- Writing the HTML file, `open_html_report` and `webbrowser.open`: these are file I/O and a browser call.
- `time.perf_counter` timing: the call's duration is a parameter of the hooks.
- The monkey-patching itself: SDK attributes are modelled as `Hook` values, either the SDK's own function or an intercepting wrapper around a saved original. Whether the SDK and its async class can be imported is a fixed flag. The async wrapper is modelled as a synchronous call (`OpenAIProvider.Patcher.Acreate`).
- `getattr` probing of arbitrary response objects: responses are datatypes with optional fields. A `model` keyword that is not a string is not modelled.
- Exceptions swallowed inside `_record` and `unpatch`: the modelled record builders cannot fail, so there is nothing to swallow.
- `profile(None)` returning the decorator itself (`tokenspy/profiler.py:44-45`), and `functools.wraps` metadata: a wrapped function is modelled by its qualname, body and outcome, and there is no function-valued result to compare.
- The `session()` generator helper (`tokenspy/profiler.py:101-106`) is modelled through `Profiler.Session` directly. `Session.cost_str` is number formatting, and `Session.summary` is the session tracker's `Tracker.Ledger.Summary`.
- `str.lower()` is modelled on ASCII letters only; Unicode case mappings are not.
- Python floats are exact reals here, so rounding in sums and divisions is not modelled.
- The `"⚡"` icon fallback and the `KeyError` of the sort key for an unknown severity cannot occur: severity is a three-valued datatype.
- Optimizer.SwitchRule, Optimizer.SmallTaskRule: `if alt_model:` tests truthiness, and the model treats every alternative as present. The two differ only for an empty alternative name, which the alternatives table never holds.
- Optimizer.HintsOrdered, Optimizer.HintsContents, Optimizer.RaisingSite, Optimizer.SiteRaises: stated for any pair of pricing functions (`PriceBook`); `Optimizer.HintsOf` and the `*Example` lemmas instantiate them with the built-in tables.
- Tracker.Ledger.TotalCost, Tracker.Ledger.TotalCalls, Tracker.Ledger.CostByFunction, Tracker.Ledger.CostByModel: these are direct reads of `SumCost`, the record count and `Tracker.CostBy`, whose properties are stated on those definitions.
