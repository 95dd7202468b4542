# openai-quota: the cost-accounting core in Dafny

openai-quota is a local HTTP proxy in front of the OpenAI chat-completions
API. It enforces one global spending ceiling in US dollars. The model covers
the part of `main.go` that decides whether a request may spend money and how
much it spent:

- the pricing catalog: per-model rates per million tokens, loaded from CSV
  records, with each row stored under its model name and under its version
  name (module `PricingLoad`);
- the price lookup: exact key, then any catalog key that is a prefix of the
  model name, then fixed default rates (module `Pricing`);
- the cost of a request and its truncation to micro-dollars (module `Cost`);
- the local prompt-token estimate (module `Tokens`);
- the model allow-list (module `AllowList`);
- the request handler `chatCompletionsProxy`, modelled as one atomic
  transition of a budget ledger, and `Serve`, which runs such transitions one
  after another (module `Proxy`);
- concrete cases taken from the repository's unit tests (module `Scenarios`).

Modelling choices:

- Go's map iteration order is unspecified. Each scan over the catalog is
  therefore given as an explicit sequence of keys, `order`, which lists every
  key exactly once (`Pricing.Enumerates`). The handler draws two independent
  orders per request, one for the pre-flight estimate and one for settlement.
  No contract depends on which of several prefix keys a scan meets first.
- `strconv.ParseFloat` is a parameter `DecimalParser = string -> Option<real>`.
  The tokenizer is a parameter `TokenCounter = (string, string) -> nat`.
- The upstream call is an input value, `Upstream = Answered(usage, choices) | Failed`.
  A reply's `forwarded` field records whether, and with what, it was called.
- The decoded JSON body is an `Option<ChatRequest>`. A missing header is the
  empty string, which is what gin's `GetHeader` returns.
- Prices and costs are mathematical reals. The `int(cost*1000000)` conversion
  is modelled as truncation toward zero.
- The handler holds the mutex from entry to return, upstream call included
  (main.go:265-266). Concurrent requests are therefore serialised, and `Serve`
  models them as a sequence. Because the lock is also held across
  `callOpenAI` (main.go:330), no two requests can pass the estimate check
  against the same spend; the only overspend left is the gap between a
  request's settled cost and its estimate, which
  `OvershootBelowSettlementGap` bounds for one request and
  `OvershootBoundedByLargestGap` for any run.

## Model

| member | source | states |
|---|---|---|
| Strings.TrimPrefix | main.go:293 | removing a present prefix leaves the rest, so that prefix + rest is the header again; an absent prefix leaves the string unchanged |
| Strings.HasPrefixExtends | main.go:164 | a prefix of a string is still a prefix of every extension of that string |
| Pricing.FirstPrefixKey | main.go:163-167 | the key the scan stops at is in the order and is a prefix of the model; the scan finds nothing exactly when no key in the order is a prefix |
| Pricing.GetPricingForModel | main.go:156-175 | an exact key wins with found = true; found holds exactly when some catalog key is a prefix of the model, and then the rates are that key's entry; otherwise the rates are the default 30/60 entry |
| Pricing.UniquePrefixWins | main.go:163-167 | when exactly one catalog key is a prefix of the model, the lookup returns that key's entry whatever the iteration order |
| Pricing.LookupRatesNonNegative | main.go:156-175 | if every catalog entry has non-negative rates, so has every lookup result, the default included |
| Pricing.GetAvailableModels | main.go:190-196 | the listing names every catalog key exactly once, so its length is the catalog size |
| PricingLoad.ParseFloat | main.go:149-154 | the empty cell reads as 0; any other cell is whatever the decimal parser makes of it |
| PricingLoad.ParseRow | main.go:108-136 | a record yields an entry exactly when it has at least five cells and its input and output cells parse; model and version come from cells 0 and 1; an unparsable cached-input cell does not reject the row |
| PricingLoad.InsertRow | main.go:138-142 | the entry is stored under its model and, when the version is non-empty and differs from the model, under its version; every other key keeps its previous entry |
| PricingLoad.ApplyRowsKeys | main.go:106-143 | after the loop a key is present exactly when it was present before or some accepted row defines it |
| PricingLoad.ApplyRowsLastRowWins | main.go:138-142 | a key defined by several rows holds the entry of the last row that defines it |
| PricingLoad.ApplyRowsLeavesOthers | main.go:106-143 | a key no accepted row defines keeps its previous entry or stays absent |
| PricingLoad.LoadModelPricing | main.go:88-147 | an unopenable or unreadable source and a file with fewer than two records are errors that leave the catalog untouched; otherwise the header is skipped and every data row is applied in file order |
| Cost.CostOfNoTokens | main.go:177-188 | zero tokens cost nothing for any model |
| Cost.CostIsLinear | main.go:184-187 | the cost is additive in the prompt and completion counts |
| Cost.CostOfExactKey | main.go:158-160 | for a model that is a catalog key, the cost in micro-dollars is prompt times the input rate plus completion times the output rate |
| Cost.CostOfUnknownModel | main.go:170-174 | a model with no prefix key is billed at 30 per million prompt tokens and 60 per million completion tokens |
| Cost.CostIsMonotone | main.go:177-188 | with non-negative rates, more tokens never cost less and the cost is never negative |
| Cost.TruncateToMicros | main.go:371 | the reported cost is a whole number of micro-dollars, lies between zero and the exact cost, and is less than one micro-dollar from it |
| Cost.TruncateToMicrosIdempotent | main.go:371 | truncating an already truncated cost changes nothing |
| Tokens.CalculateTokensFromMessages | main.go:217-224 | the estimate is at least 3 plus 3 per message, and exactly 3 for an empty conversation |
| Tokens.EstimateSplits | main.go:217-224 | the estimate of a concatenated conversation is the sum of the parts' estimates less the one fixed 3 |
| Tokens.SingleMessageEstimate | main.go:217-224 | one message costs the token count of role, name and content concatenated, plus 6 |
| AllowList.MatchesAnyPrefix | main.go:199-204 | the scan succeeds exactly when some listed prefix is a prefix of the model |
| AllowList.IsModelAllowed | main.go:198-205 | a model is allowed exactly when it begins with one of the six configured prefixes |
| AllowList.AllowedIsClosedUnderExtension | main.go:198-205 | extending an allowed name (a dated release, a -mini variant) keeps it allowed |
| AllowList.AllowListExamples | main_test.go:247-271 | gpt-4o, gpt-4o-mini, gpt-4.1, o3, o4 and gpt-3.5 are allowed; claude-3, llama-2, the empty name and bare gpt-4 are not |
| Proxy.CheckAuthorization | main.go:277-299 | an empty header, a header without "Bearer ", and "Bearer " with nothing after it are the three distinct failures; a success is a non-empty key that "Bearer " prefixes to the header |
| Proxy.SettleCounts | main.go:344-358 | a positive reported prompt count replaces the estimate; when the completion count is zero both counts are recounted locally, the completion from the choices' text; the billed prompt count is at least 3 or the positive reported one |
| Proxy.ChatCompletionsProxy | main.go:264-375 | the checks run in order (spent budget, authorization, body, allow-list, prompt estimate), each reply holding exactly when every earlier check passed and its own failed; the upstream is called exactly when all pass, with the body and key; a refused or failed request leaves the ledger unchanged; a completed one adds the settled cost and reports it truncated to micro-dollars |
| Proxy.Serve | main.go:264-266 | requests served one at a time give one reply each and keep the ceiling; if none completes, spend is unchanged |
| Proxy.ExhaustedBudgetStaysExhausted | main.go:268-274 | once spend has reached the ceiling every later request gets 429 and spend stays fixed |
| Proxy.StepNeverRefunds | main.go:360-362 | with non-negative rates and usage a request never lowers the total spend |
| Proxy.SpendNeverDecreases | main.go:360-362 | with non-negative rates and usage the total spend never decreases over any sequence of requests |
| Proxy.OvershootBelowSettlementGap | main.go:317-362 | a request that passes every check and whose upstream answers completes, and it overshoots the ceiling by less than its settled cost exceeds its pre-flight prompt estimate |
| Proxy.OvershootBoundedByLargestGap | main.go:264-362 | over any sequence of requests, spend that starts below the ceiling plus a bound stays below it, provided no request's settled cost exceeds its estimate by more than that bound |
| Proxy.RemainingGatesAdmission | main.go:268-274 | a remaining budget of zero or less refuses every request; a completed request lowers the remaining budget by exactly its settled cost |
| Proxy.RefusalIgnoresUpstream | main.go:264-328 | a request refused before dispatch gets the same reply and ledger whatever the upstream would have answered |
| Scenarios.TestCatalogCosts | main_test.go:222-245 | with the test catalog, 1000/500 gpt-4o tokens cost 0.0075, 500/200 gpt-4o-mini tokens cost 0.000195, and no tokens cost 0 |
| Scenarios.DatedReleaseResolvesToFamily | main_test.go:195-220 | gpt-4o-2024-08-06 is priced as gpt-4o, reported as found |
| Scenarios.UnknownModelGetsDefault | main_test.go:195-220 | unknown-model gets the default rates and is reported as not found |
| Scenarios.VersionedCatalogLookups | additional_test.go:16-51 | with gpt-4o stored under its model and version names, both dated releases are found and bare gpt-4 is not |
| Scenarios.ValidFileGivesFourEntries | main_test.go:101-108 | two rows with distinct versions yield four catalog entries |
| Scenarios.EmptyCachedInputGivesTwoEntries | main_test.go:109-115 | a row with an empty cached-input cell is accepted with cached input 0 and stored under two keys |
| Scenarios.InvalidInputRowIsSkipped | main_test.go:116-122 | a row whose input price does not parse adds nothing |
| Scenarios.AuthorizationExamples | main_test.go:410-445 | the missing, malformed and empty-key headers of the tests are refused for their distinct reasons; "Bearer sk-test-key" yields the key sk-test-key |
| Scenarios.ZeroQuotaRefusesEverything | main_test.go:496-529 | with a ceiling of 0 every request gets 429 |
| Scenarios.DisallowedModelRefused | main_test.go:462-494 | a claude-3 request with a valid key is refused with 400 and not forwarded |
| Scenarios.TinyQuotaRefusesBeforeDispatch | main_test.go:531-568 | with a ceiling of one micro-dollar a gpt-4o prompt is refused with 429 before the upstream is called |
| Scenarios.EmptyConversationReachesUpstream | main_test.go:711-732 | an empty message list passes every check and is forwarded, so an upstream failure yields 500 |
| Scenarios.WorkflowTestFailsUpstream | main_test.go:615-678 | the workflow test's one-message gpt-4o request passes every check and is forwarded with its key; the upstream call fails, so the reply is 500 and nothing is billed |
| Scenarios.MockAnswerIsBilled | main.go:344-372 | had the upstream answered as the test's mock server does (5 prompt and 8 completion tokens, main_test.go:641-645), the request would be billed 0.0000925 and reported as 0.000092 |

## Left out

- HTTP routing, gin, JSON encoding and decoding: a body that fails to decode is the `None` body; the fields the proxy only forwards (temperature, max_tokens and so on) and `TotalTokens` are not modelled.
- `callOpenAI` (main.go:226-262) is not modelled: its outcome is the `Upstream` input, and a non-200 answer, a transport error and an undecodable body all become `Failed`.
- `countTokens` (main.go:207-215) and the tiktoken encodings: the tokenizer is the uninterpreted `TokenCounter` parameter.
- encoding/csv and strconv: the CSV reader's own errors are the `CannotRead` source error; the decimal parser is the uninterpreted `DecimalParser`, so whitespace handling and the CSV reader's field-count check are outside the model.
- PricingLoad.ParseRow: for a cached-input cell out of float64 range Go keeps plus or minus infinity; reals have no infinity, so the model stores 0, as it does for a syntax error.
- IEEE-754 floating point: rates and costs are exact reals, so rounding, NaN and infinite ceilings are not modelled.
- Cost.TruncateToMicros: the 64-bit overflow of `int(cost*1000000)` for costs above about 9.2 trillion dollars is not modelled.
- The mutex and goroutines: requests are serialised by construction (`Serve`), which is what the handler-wide lock yields.
- Logging, including the failure-path cost computed only for the log line (main.go:332-336), and `main`'s flags and server start-up (main.go:400 onward).
- The `info` and `pricing` endpoints (main.go:377-398) are modelled only through `Ledger.Remaining` and `GetAvailableModels`.
- Go strings are byte sequences and `strings.HasPrefix`/`strings.TrimPrefix` (main.go:164, 200, 286, 293) compare bytes, while a Dafny `string` is a sequence of Unicode scalar values; the two agree on valid UTF-8, and names or headers that are not valid UTF-8 have no counterpart in the model.
- The allow-list built from the catalog by the test helpers is not in `main.go` and is not modelled; the fixed list of main.go:22 is.
