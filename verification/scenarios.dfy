/**
  Concrete situations from the repository's tests, stated over the model:
  the six-entry test catalog, the CSV fixtures and the handler's rejection
  codes. The tokenizer and decimal parser stay parameters; where a scenario
  needs particular values from them, it says so in its `requires`.
*/
module Scenarios {
  import opened Wrappers
  import opened Strings
  import opened Pricing
  import opened PricingLoad
  import opened Cost
  import opened Tokens
  import opened AllowList
  import opened Proxy

  /** The catalog the tests reset to before each handler test. */
  const TestCatalog: Catalog := map[
    "gpt-4o" := ModelPricing("gpt-4o", "", 2.5, 0.0, 10.0),
    "gpt-4o-mini" := ModelPricing("gpt-4o-mini", "", 0.15, 0.0, 0.6),
    "gpt-4.1" := ModelPricing("gpt-4.1", "", 2.0, 0.0, 8.0),
    "o3" := ModelPricing("o3", "", 2.0, 0.0, 8.0),
    "o4-mini" := ModelPricing("o4-mini", "", 1.1, 0.0, 4.4),
    "gpt-3.5-turbo" := ModelPricing("gpt-3.5-turbo", "", 0.5, 0.0, 1.5)]

  /** The two test-catalog entries the scenarios price against. */
  lemma TestCatalogEntries()
    ensures "gpt-4o" in TestCatalog && TestCatalog["gpt-4o"] == ModelPricing("gpt-4o", "", 2.5, 0.0, 10.0)
    ensures "gpt-4o-mini" in TestCatalog && TestCatalog["gpt-4o-mini"] == ModelPricing("gpt-4o-mini", "", 0.15, 0.0, 0.6)
  {
    assert |"gpt-4o"| == 6 && |"gpt-4o-mini"| == 11 && |"gpt-4.1"| == 7;
    assert |"o3"| == 2 && |"o4-mini"| == 7 && |"gpt-3.5-turbo"| == 13;
  }

  /** The tests' default budget: nothing spent, two dollars allowed. */
  const TestLedger: Ledger := Ledger(0.0, 2.0)

  /** Two strings that differ at a position both have are not prefix-related. */
  lemma DifferAt(s: string, prefix: string, i: nat)
    requires i < |s| && i < |prefix| && s[i] != prefix[i]
    ensures !HasPrefix(s, prefix)
  {
  }

  /** Exact keys are priced at their own rates; no tokens cost nothing. */
  lemma TestCatalogCosts(order: seq<string>)
    requires Enumerates(order, TestCatalog)
    ensures CalculateCost(1000, 500, "gpt-4o", TestCatalog, order) == 0.0075
    ensures CalculateCost(500, 200, "gpt-4o-mini", TestCatalog, order) == 0.000195
    ensures CalculateCost(0, 0, "gpt-4o", TestCatalog, order) == 0.0
  {
    CostOfExactKey(1000, 500, "gpt-4o", TestCatalog, order);
    CostOfExactKey(500, 200, "gpt-4o-mini", TestCatalog, order);
    CostOfNoTokens("gpt-4o", TestCatalog, order);
  }

  /** A dated release resolves to its family's entry: gpt-4o is the only key that is a prefix of it. */
  lemma DatedReleaseResolvesToFamily(order: seq<string>)
    requires Enumerates(order, TestCatalog)
    ensures GetPricingForModel(TestCatalog, order, "gpt-4o-2024-08-06") == Lookup(TestCatalog["gpt-4o"], true)
  {
    var dated := "gpt-4o-2024-08-06";
    assert HasPrefix(dated, "gpt-4o");
    forall k | k in TestCatalog && HasPrefix(dated, k)
      ensures k == "gpt-4o"
    {
      if k == "gpt-4o-mini" {
        DifferAt(dated, k, 7);
      } else if k == "gpt-4.1" {
        DifferAt(dated, k, 5);
      } else if k == "gpt-3.5-turbo" {
        DifferAt(dated, k, 4);
      } else if k != "gpt-4o" {
        DifferAt(dated, k, 0);
      }
    }
    UniquePrefixWins(TestCatalog, order, dated, "gpt-4o");
  }

  /** A name no key is a prefix of gets the default rates, reported as not found. */
  lemma UnknownModelGetsDefault(order: seq<string>)
    requires Enumerates(order, TestCatalog)
    ensures GetPricingForModel(TestCatalog, order, "unknown-model") == Lookup(DefaultPricing, false)
  {
    forall k | k in TestCatalog
      ensures !HasPrefix("unknown-model", k)
    {
      DifferAt("unknown-model", k, 0);
    }
  }

  /** The test catalog with the gpt-4o entry also stored under its dated version. */
  const VersionedCatalog: Catalog :=
    TestCatalog["gpt-4o" := ModelPricing("gpt-4o", "gpt-4o-2024-08-06", 2.5, 0.0, 10.0)]
               ["gpt-4o-2024-08-06" := ModelPricing("gpt-4o", "gpt-4o-2024-08-06", 2.5, 0.0, 10.0)]

  /** Another release of the family matches by prefix; the bare "gpt-4" matches nothing. */
  lemma VersionedCatalogLookups(order: seq<string>)
    requires Enumerates(order, VersionedCatalog)
    ensures GetPricingForModel(VersionedCatalog, order, "gpt-4o-2024-08-06").found
    ensures GetPricingForModel(VersionedCatalog, order, "gpt-4o-2024-11-20").found
    ensures !GetPricingForModel(VersionedCatalog, order, "gpt-4").found
  {
    assert HasPrefix("gpt-4o-2024-11-20", "gpt-4o");
    forall k | k in VersionedCatalog
      ensures !HasPrefix("gpt-4", k)
    {
      if k == "o3" || k == "o4-mini" {
        DifferAt("gpt-4", k, 0);
      } else {
        assert |k| > |"gpt-4"|;
      }
    }
  }

  /** The header record of the pricing file. */
  const Header: seq<string> := ["model", "version", "input", "cached_input", "output"]

  /** The two data rows of the valid pricing file. */
  const GptRow: seq<string> := ["gpt-4o", "gpt-4o-2024-08-06", "2.5", "1.25", "10.0"]
  const MiniRow: seq<string> := ["gpt-4o-mini", "gpt-4o-mini-2024-07-18", "0.15", "0.075", "0.6"]

  /** Each valid row is accepted and stored under its model and its dated version. */
  lemma ValidRowKeys(strconv: DecimalParser)
    requires strconv("2.5").Some? && strconv("10.0").Some?
    requires strconv("0.15").Some? && strconv("0.6").Some?
    ensures ParseRow(GptRow, strconv).Some?
    ensures RowKeys(ParseRow(GptRow, strconv).value) == {"gpt-4o", "gpt-4o-2024-08-06"}
    ensures ParseRow(MiniRow, strconv).Some?
    ensures RowKeys(ParseRow(MiniRow, strconv).value) == {"gpt-4o-mini", "gpt-4o-mini-2024-07-18"}
  {
    assert ParseRow(GptRow, strconv).value.version == "gpt-4o-2024-08-06";
    assert ParseRow(MiniRow, strconv).value.version == "gpt-4o-mini-2024-07-18";
  }

  /** Two valid rows with distinct versions give four entries, each version sharing its model's entry. */
  lemma ValidFileGivesFourEntries(strconv: DecimalParser)
    requires strconv("2.5").Some? && strconv("10.0").Some?
    requires strconv("0.15").Some? && strconv("0.6").Some?
    ensures var c := ApplyRows(map[], [GptRow, MiniRow], strconv);
            && c.Keys == {"gpt-4o", "gpt-4o-2024-08-06", "gpt-4o-mini", "gpt-4o-mini-2024-07-18"}
            && |c| == 4
            && c["gpt-4o-2024-08-06"] == c["gpt-4o"]
            && c["gpt-4o-mini-2024-07-18"] == c["gpt-4o-mini"]
  {
    var p1 := ParseRow(GptRow, strconv).value;
    var p2 := ParseRow(MiniRow, strconv).value;
    ValidRowKeys(strconv);
    assert ApplyRows(map[], [GptRow, MiniRow], strconv) == InsertRow(InsertRow(map[], p1), p2) by {
      TwoRows(map[], GptRow, MiniRow, strconv);
    }
    TwoDisjointRows(p1, p2);
    FourDistinctKeys("gpt-4o", "gpt-4o-2024-08-06", "gpt-4o-mini", "gpt-4o-mini-2024-07-18");
  }

  /** Two accepted rows with disjoint keys: four keys' worth of entries, each row's keys holding that row. */
  lemma TwoDisjointRows(p1: ModelPricing, p2: ModelPricing)
    requires RowKeys(p1) !! RowKeys(p2)
    ensures var c := InsertRow(InsertRow(map[], p1), p2);
            && c.Keys == RowKeys(p1) + RowKeys(p2)
            && (forall k :: k in RowKeys(p1) ==> c[k] == p1)
            && (forall k :: k in RowKeys(p2) ==> c[k] == p2)
  {
  }

  /** Four names of pairwise different lengths form a four-element set. */
  lemma FourDistinctKeys(a: string, b: string, c: string, d: string)
    requires |a| < |c| < |b| < |d|
    ensures |{a, b} + {c, d}| == 4
  {
    assert {a, b} + {c, d} == {a} + {b} + {c} + {d};
  }

  /** Two data rows are applied first to last. */
  lemma TwoRows(catalog: Catalog, row1: seq<string>, row2: seq<string>, strconv: DecimalParser)
    ensures ApplyRows(catalog, [row1, row2], strconv) == ApplyRow(ApplyRow(catalog, row1, strconv), row2, strconv)
  {
    assert [row1, row2][..1] == [row1];
    assert ApplyRows(catalog, [row1], strconv) == ApplyRow(catalog, row1, strconv) by {
      assert [row1][..0] == [];
    }
  }

  /** A row with an empty cached_input cell still yields its two entries, with a zero cached rate. */
  lemma EmptyCachedInputGivesTwoEntries(strconv: DecimalParser)
    requires strconv("2.5").Some? && strconv("10.0").Some?
    ensures var c := ApplyRows(map[], [["gpt-4o", "gpt-4o-2024-08-06", "2.5", "", "10.0"]], strconv);
            && c.Keys == {"gpt-4o", "gpt-4o-2024-08-06"}
            && |c| == 2
            && c["gpt-4o"].cachedInput == 0.0
  {
    var row := ["gpt-4o", "gpt-4o-2024-08-06", "2.5", "", "10.0"];
    assert [row][..0] == [];
    var keys: set<string> := {"gpt-4o", "gpt-4o-2024-08-06"};
    assert |keys| == 2 by {
      assert keys == {"gpt-4o"} + {"gpt-4o-2024-08-06"};
    }
  }

  /** A row whose input cell does not parse is skipped, leaving the catalog empty. */
  lemma InvalidInputRowIsSkipped(strconv: DecimalParser)
    requires strconv("invalid").None?
    ensures ApplyRows(map[], [["gpt-4o", "gpt-4o-2024-08-06", "invalid", "1.25", "10.0"]], strconv) == map[]
  {
    var row := ["gpt-4o", "gpt-4o-2024-08-06", "invalid", "1.25", "10.0"];
    assert [row][..0] == [];
  }

  /** A well-formed request with a valid key, against the tests' budget. */
  function TestCall(model: string, messages: seq<ChatMessage>, upstream: Upstream, order: seq<string>): Call {
    Call("Bearer sk-test-key", Some(ChatRequest(model, messages)), upstream, order, order)
  }

  /** The Authorization header shapes the tests send. */
  lemma AuthorizationExamples()
    ensures CheckAuthorization("") == Failure(MissingHeader)
    ensures CheckAuthorization("InvalidFormat") == Failure(NotBearer)
    ensures CheckAuthorization("sk-test-key") == Failure(NotBearer)
    ensures CheckAuthorization("Bearer ") == Failure(EmptyKey)
    ensures CheckAuthorization("Bearer sk-test-key") == Success("sk-test-key")
  {
    DifferAt("InvalidFormat", BearerPrefix, 0);
    DifferAt("sk-test-key", BearerPrefix, 0);
    assert HasPrefix("Bearer sk-test-key", BearerPrefix);
  }

  /** A zero ceiling refuses every request with 429, before looking at the credentials. */
  lemma ZeroQuotaRefusesEverything(count: TokenCounter, call: Call)
    requires WellFormedCall(call, TestCatalog)
    ensures ChatCompletionsProxy(Ledger(0.0, 0.0), TestCatalog, count, call).reply == CostLimitExceeded
    ensures Status(ChatCompletionsProxy(Ledger(0.0, 0.0), TestCatalog, count, call).reply) == 429
  {
  }

  /** A model outside the allow-list is refused with 400 even with the whole budget left. */
  lemma DisallowedModelRefused(count: TokenCounter, messages: seq<ChatMessage>, upstream: Upstream, order: seq<string>)
    requires Enumerates(order, TestCatalog)
    ensures var s := ChatCompletionsProxy(TestLedger, TestCatalog, count, TestCall("claude-3", messages, upstream, order));
            s.reply == ModelNotAllowed("claude-3") && Status(s.reply) == 400 && s.ledger == TestLedger
  {
    AllowListExamples();
    AuthorizationExamples();
  }

  /** gpt-4o in the test catalog: 2.5 dollars per million prompt tokens, 10 per million completion tokens. */
  lemma Gpt4oCost(promptTokens: int, completionTokens: int, order: seq<string>)
    requires Enumerates(order, TestCatalog)
    ensures CalculateCost(promptTokens, completionTokens, "gpt-4o", TestCatalog, order) * 1000000.0
         == 2.5 * promptTokens as real + 10.0 * completionTokens as real
  {
    TestCatalogEntries();
    CostOfExactKey(promptTokens, completionTokens, "gpt-4o", TestCatalog, order);
  }

  /** The test call clears every check but the estimate whenever budget is left and the model is allowed. */
  lemma ValidTestCall(ledger: Ledger, model: string, messages: seq<ChatMessage>, upstream: Upstream, order: seq<string>)
    requires ledger.totalCost < ledger.costLimit
    requires IsModelAllowed(model)
    ensures PassesChecks(ledger, TestCall(model, messages, upstream, order))
    ensures CheckAuthorization(TestCall(model, messages, upstream, order).authHeader) == Success("sk-test-key")
  {
    AuthorizationExamples();
  }

  /**
    With a one micro-dollar ceiling every gpt-4o request is refused on its
    estimate alone (at least three tokens at 2.5 dollars per million), so the
    upstream is never called.
  */
  lemma TinyQuotaRefusesBeforeDispatch(count: TokenCounter, messages: seq<ChatMessage>, upstream: Upstream,
                                       order: seq<string>)
    requires Enumerates(order, TestCatalog)
    ensures var s := ChatCompletionsProxy(Ledger(0.0, 0.000001), TestCatalog, count,
                                          TestCall("gpt-4o", messages, upstream, order));
            s.reply == WouldExceedCostLimit && Status(s.reply) == 429 && s.forwarded.None?
  {
    var ledger := Ledger(0.0, 0.000001);
    var call := TestCall("gpt-4o", messages, upstream, order);
    assert PassesChecks(ledger, call) by {
      AllowListExamples();
      ValidTestCall(ledger, "gpt-4o", messages, upstream, order);
    }
    assert PromptCost(call.body.value, TestCatalog, order, count) >= 0.000001 by {
      Gpt4oCost(CalculateTokensFromMessages(messages, "gpt-4o", count), 0, order);
    }
  }

  /** An empty conversation passes every check and is forwarded; an upstream error then yields 500. */
  lemma EmptyConversationReachesUpstream(count: TokenCounter, order: seq<string>)
    requires Enumerates(order, TestCatalog)
    ensures var s := ChatCompletionsProxy(TestLedger, TestCatalog, count, TestCall("gpt-4o", [], Failed, order));
            s.reply == UpstreamError && Status(s.reply) == 500 && s.ledger == TestLedger
            && s.forwarded == Some(Forward(ChatRequest("gpt-4o", []), "sk-test-key"))
  {
    var call := TestCall("gpt-4o", [], Failed, order);
    assert PassesChecks(TestLedger, call) && CheckAuthorization(call.authHeader) == Success("sk-test-key") by {
      AllowListExamples();
      ValidTestCall(TestLedger, "gpt-4o", [], Failed, order);
    }
    assert PromptCost(call.body.value, TestCatalog, order, count) < 2.0 by {
      Gpt4oCost(3, 0, order);
    }
  }

  /** The workflow test's request body: one "Hello" from the user to gpt-4o. */
  const Hello := ChatMessage("user", "Hello", "")

  /** The workflow test's request with the given upstream outcome. */
  function HelloCall(upstream: Upstream, order: seq<string>): Call {
    TestCall("gpt-4o", [Hello], upstream, order)
  }

  /** The workflow test's request clears every check, its estimate included, whatever the upstream does. */
  lemma HelloCallIsAdmitted(count: TokenCounter, upstream: Upstream, order: seq<string>)
    requires Enumerates(order, TestCatalog)
    requires count(MessageText(Hello), "gpt-4o") <= 100
    ensures PassesChecks(TestLedger, HelloCall(upstream, order))
    ensures PromptCost(HelloCall(upstream, order).body.value, TestCatalog, order, count) < 2.0
  {
    assert PassesChecks(TestLedger, HelloCall(upstream, order)) by {
      AllowListExamples();
      ValidTestCall(TestLedger, "gpt-4o", [Hello], upstream, order);
    }
    SingleMessageEstimate(Hello, "gpt-4o", count);
    Gpt4oCost(CalculateTokensFromMessages([Hello], "gpt-4o", count), 0, order);
  }

  /**
    What the workflow test observes: the request is forwarded with its key,
    the upstream call fails, and the reply is a 500 with nothing billed.
  */
  lemma WorkflowTestFailsUpstream(count: TokenCounter, order: seq<string>)
    requires Enumerates(order, TestCatalog)
    requires count(MessageText(Hello), "gpt-4o") <= 100
    ensures var s := ChatCompletionsProxy(TestLedger, TestCatalog, count, HelloCall(Failed, order));
            && s.reply == UpstreamError && Status(s.reply) == 500
            && s.ledger == TestLedger
            && s.forwarded == Some(Forward(ChatRequest("gpt-4o", [Hello]), "sk-test-key"))
  {
    assert CheckAuthorization(HelloCall(Failed, order).authHeader) == Success("sk-test-key") by {
      AuthorizationExamples();
    }
    HelloCallIsAdmitted(count, Failed, order);
  }

  /**
    The bill the workflow test's mock upstream would produce, had it been
    called: with 5 prompt and 8 completion tokens reported, the request costs
    92.5 micro-dollars and is reported as 0.000092.
  */
  lemma MockAnswerIsBilled(count: TokenCounter, choices: seq<ChatMessage>, order: seq<string>)
    requires Enumerates(order, TestCatalog)
    requires count(MessageText(Hello), "gpt-4o") <= 100
    ensures var s := ChatCompletionsProxy(TestLedger, TestCatalog, count, HelloCall(Answered(Usage(5, 8), choices), order));
            && s.reply.Completed?
            && s.reply.proxyUsage == ProxyUsage(5, 8, 0.000092)
            && s.ledger == Ledger(0.0000925, 2.0)
  {
    var call := HelloCall(Answered(Usage(5, 8), choices), order);
    assert PassesChecks(TestLedger, call) && PromptCost(call.body.value, TestCatalog, order, count) < 2.0 by {
      HelloCallIsAdmitted(count, call.upstream, order);
    }
    assert SettleCounts(call.body.value, Usage(5, 8), choices, count) == Counts(5, 8);
    assert CalculateCost(5, 8, "gpt-4o", TestCatalog, order) == 0.0000925 by {
      Gpt4oCost(5, 8, order);
    }
    assert TruncateToMicros(0.0000925) == 0.000092 by {
      assert (0.0000925 * 1000000.0).Floor == 92;
    }
  }
}
