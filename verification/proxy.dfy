/**
  The admission controller of `chatCompletionsProxy` as one atomic
  transition of the budget ledger.

  The handler takes the global mutex on entry and releases it on return,
  upstream call included, so requests are served strictly one after
  another; `Serve` composes the transition over a sequence of requests.
  The body decoder, the upstream API and the tokenizer are inputs: the
  decoded body is an `Option`, the upstream answer a value of `Upstream`,
  the tokenizer a `TokenCounter`.
*/
module Proxy {
  import opened Wrappers
  import opened Strings
  import opened Pricing
  import opened Cost
  import opened Tokens
  import opened AllowList

  /** The decoded request body; fields the proxy only forwards are not modelled. */
  datatype ChatRequest = ChatRequest(model: string, messages: seq<ChatMessage>)

  /** Token counts as the upstream reports them (JSON integers, so possibly negative or zero). */
  datatype Usage = Usage(promptTokens: int, completionTokens: int)

  /** What the upstream call returned: a completion with its usage and choices' messages, or an error. */
  datatype Upstream = Answered(usage: Usage, choices: seq<ChatMessage>) | Failed

  /** The accounting record attached to a successful response. */
  datatype ProxyUsage = ProxyUsage(promptTokens: int, completionTokens: int, costUSD: real)

  datatype AuthFailure =
    | MissingHeader   // no Authorization header
    | NotBearer       // header does not start with "Bearer "
    | EmptyKey        // nothing after "Bearer "

  /** The handler's answer; `Status` gives its HTTP status code. */
  datatype Reply =
    | CostLimitExceeded
    | Unauthorized(reason: AuthFailure)
    | MissingJson
    | ModelNotAllowed(model: string)
    | WouldExceedCostLimit
    | UpstreamError
    | Completed(choices: seq<ChatMessage>, usage: Usage, proxyUsage: ProxyUsage)

  function Status(reply: Reply): int {
    match reply
    case CostLimitExceeded => 429
    case Unauthorized(_) => 401
    case MissingJson => 400
    case ModelNotAllowed(_) => 400
    case WouldExceedCostLimit => 429
    case UpstreamError => 500
    case Completed(_, _, _) => 200
  }

  /** The shared budget: spend so far and the configured ceiling, both in US dollars. */
  datatype Ledger = Ledger(totalCost: real, costLimit: real) {
    /** The `remaining` figure of the status endpoint. */
    function Remaining(): real {
      costLimit - totalCost
    }
  }

  /** The request and API key handed to the upstream call. */
  datatype Forward = Forward(request: ChatRequest, apiKey: string)

  /**
    One incoming request: its Authorization header (empty when absent), its
    decoded body, the upstream's answer should it be asked, and the catalog
    orders of the two price lookups (pre-flight estimate, settlement).
  */
  datatype Call = Call(
    authHeader: string,
    body: Option<ChatRequest>,
    upstream: Upstream,
    estimateOrder: seq<string>,
    settleOrder: seq<string>)

  /** The outcome of one request: the reply, the ledger after it, and what was forwarded upstream. */
  datatype Step = Step(reply: Reply, ledger: Ledger, forwarded: Option<Forward>)

  /** Both lookup orders are passes over `catalog`. */
  predicate WellFormedCall(call: Call, catalog: Catalog) {
    Enumerates(call.estimateOrder, catalog) && Enumerates(call.settleOrder, catalog)
  }

  const BearerPrefix: string := "Bearer "

  /** The API key carried by an Authorization header of the form "Bearer <key>". */
  function CheckAuthorization(header: string): (r: Result<string, AuthFailure>)
    ensures r == Failure(MissingHeader) <==> header == ""
    ensures r == Failure(NotBearer) <==> header != "" && !HasPrefix(header, BearerPrefix)
    ensures r == Failure(EmptyKey) <==> header == BearerPrefix
    ensures r.Success? ==> r.value != "" && BearerPrefix + r.value == header
  {
    if header == "" then Failure(MissingHeader)
    else if !HasPrefix(header, BearerPrefix) then Failure(NotBearer)
    else
      var apiKey := TrimPrefix(header, BearerPrefix);
      if apiKey == "" then Failure(EmptyKey) else Success(apiKey)
  }

  /** The contents of all choices, concatenated in order. */
  function CompletionText(choices: seq<ChatMessage>): string
    decreases |choices|
  {
    if |choices| == 0 then ""
    else CompletionText(choices[..|choices| - 1]) + choices[|choices| - 1].content
  }

  /** The cost of a request's prompt alone, as estimated before the upstream call. */
  function PromptCost(request: ChatRequest, catalog: Catalog, order: seq<string>, count: TokenCounter): real
    requires Enumerates(order, catalog)
  {
    CalculateCost(CalculateTokensFromMessages(request.messages, request.model, count), 0, request.model, catalog, order)
  }

  /** Billed token counts. */
  datatype Counts = Counts(prompt: int, completion: int)

  /**
    The counts billed after a successful upstream reply. The reported prompt
    count replaces the local estimate only when positive; when either count is
    then zero, both are recounted locally, the completion from the choices'
    text. Since the estimate is at least three, the recount happens exactly
    when the reported completion count is zero.
  */
  function SettleCounts(request: ChatRequest, usage: Usage, choices: seq<ChatMessage>, count: TokenCounter): (c: Counts)
    ensures c.completion == if usage.completionTokens == 0
                            then count(CompletionText(choices), request.model)
                            else usage.completionTokens
    ensures c.prompt == if usage.completionTokens == 0 || usage.promptTokens <= 0
                        then CalculateTokensFromMessages(request.messages, request.model, count)
                        else usage.promptTokens
    ensures c.prompt >= 3 || c.prompt == usage.promptTokens > 0
  {
    var estimate := CalculateTokensFromMessages(request.messages, request.model, count);
    var prompt := if usage.promptTokens > 0 then usage.promptTokens else estimate;
    var completion := usage.completionTokens;
    if prompt == 0 || completion == 0 then
      Counts(CalculateTokensFromMessages(request.messages, request.model, count),
             count(CompletionText(choices), request.model))
    else
      Counts(prompt, completion)
  }

  /** The request clears the budget, authorization, body and allow-list checks. */
  predicate PassesChecks(ledger: Ledger, call: Call) {
    && ledger.totalCost < ledger.costLimit
    && CheckAuthorization(call.authHeader).Success?
    && call.body.Some?
    && IsModelAllowed(call.body.value.model)
  }

  /**
    `chatCompletionsProxy`. Rejections come in a fixed order (spent budget,
    authorization, body, allow-list, pre-flight estimate, upstream failure)
    and none of them touches the ledger; only a completed round trip adds
    its settled cost.
  */
  function ChatCompletionsProxy(ledger: Ledger, catalog: Catalog, count: TokenCounter, call: Call): (s: Step)
    requires WellFormedCall(call, catalog)
    ensures s.ledger.costLimit == ledger.costLimit
    ensures s.reply == CostLimitExceeded <==> ledger.totalCost >= ledger.costLimit
    ensures s.reply.Unauthorized? <==>
              ledger.totalCost < ledger.costLimit && CheckAuthorization(call.authHeader).Failure?
    ensures s.reply.Unauthorized? ==> s.reply.reason == CheckAuthorization(call.authHeader).error
    ensures s.reply == MissingJson <==>
              && ledger.totalCost < ledger.costLimit
              && CheckAuthorization(call.authHeader).Success?
              && call.body.None?
    ensures s.reply.ModelNotAllowed? <==>
              && ledger.totalCost < ledger.costLimit
              && CheckAuthorization(call.authHeader).Success?
              && call.body.Some?
              && !IsModelAllowed(call.body.value.model)
    ensures s.reply == WouldExceedCostLimit <==>
              && PassesChecks(ledger, call)
              && ledger.totalCost + PromptCost(call.body.value, catalog, call.estimateOrder, count) >= ledger.costLimit
    ensures s.forwarded.Some? <==>
              && PassesChecks(ledger, call)
              && ledger.totalCost + PromptCost(call.body.value, catalog, call.estimateOrder, count) < ledger.costLimit
    ensures s.forwarded.Some? ==>
              s.forwarded.value == Forward(call.body.value, CheckAuthorization(call.authHeader).value)
    ensures s.reply == UpstreamError <==> s.forwarded.Some? && call.upstream.Failed?
    ensures s.reply.Completed? <==> s.forwarded.Some? && call.upstream.Answered?
    ensures !s.reply.Completed? ==> s.ledger == ledger
    ensures s.reply.Completed? ==>
              && s.reply.choices == call.upstream.choices
              && s.reply.usage == call.upstream.usage
              && Counts(s.reply.proxyUsage.promptTokens, s.reply.proxyUsage.completionTokens)
                 == SettleCounts(call.body.value, call.upstream.usage, call.upstream.choices, count)
              && s.ledger.totalCost == ledger.totalCost
                 + CalculateCost(s.reply.proxyUsage.promptTokens, s.reply.proxyUsage.completionTokens,
                                 call.body.value.model, catalog, call.settleOrder)
              && s.reply.proxyUsage.costUSD == TruncateToMicros(s.ledger.totalCost - ledger.totalCost)
  {
    if ledger.totalCost >= ledger.costLimit then
      Step(CostLimitExceeded, ledger, None)
    else
      match CheckAuthorization(call.authHeader)
      case Failure(why) => Step(Unauthorized(why), ledger, None)
      case Success(apiKey) =>
        match call.body
        case None => Step(MissingJson, ledger, None)
        case Some(request) =>
          if !IsModelAllowed(request.model) then
            Step(ModelNotAllowed(request.model), ledger, None)
          else
            var promptTokens := CalculateTokensFromMessages(request.messages, request.model, count);
            var promptCost := CalculateCost(promptTokens, 0, request.model, catalog, call.estimateOrder);
            if ledger.totalCost + promptCost >= ledger.costLimit then
              Step(WouldExceedCostLimit, ledger, None)
            else
              var forwarded := Some(Forward(request, apiKey));
              match call.upstream
              case Failed => Step(UpstreamError, ledger, forwarded)
              case Answered(usage, choices) =>
                var counts := SettleCounts(request, usage, choices, count);
                var cost := CalculateCost(counts.prompt, counts.completion, request.model, catalog, call.settleOrder);
                var proxyUsage := ProxyUsage(counts.prompt, counts.completion, TruncateToMicros(cost));
                Step(Completed(choices, usage, proxyUsage), ledger.(totalCost := ledger.totalCost + cost), forwarded)
  }

  /** Every call of the sequence is well formed for `catalog`. */
  predicate WellFormedCalls(calls: seq<Call>, catalog: Catalog) {
    forall i :: 0 <= i < |calls| ==> WellFormedCall(calls[i], catalog)
  }

  /** The replies to a sequence of requests and the ledger after the last one. */
  datatype Trace = Trace(replies: seq<Reply>, ledger: Ledger)

  /** Requests served one at a time under the mutex, in arrival order. */
  function Serve(ledger: Ledger, catalog: Catalog, count: TokenCounter, calls: seq<Call>): (t: Trace)
    requires WellFormedCalls(calls, catalog)
    ensures |t.replies| == |calls|
    ensures t.ledger.costLimit == ledger.costLimit
    ensures (forall i :: 0 <= i < |t.replies| ==> !t.replies[i].Completed?) ==> t.ledger == ledger
    decreases |calls|
  {
    if |calls| == 0 then Trace([], ledger)
    else
      var step := ChatCompletionsProxy(ledger, catalog, count, calls[0]);
      var rest := Serve(step.ledger, catalog, count, calls[1..]);
      var replies := [step.reply] + rest.replies;
      if forall i :: 0 <= i < |replies| ==> !replies[i].Completed? then
        assert step.ledger == ledger by {
          assert replies[0] == step.reply;
        }
        assert forall i :: 0 <= i < |rest.replies| ==> !rest.replies[i].Completed? by {
          forall i | 0 <= i < |rest.replies|
            ensures !rest.replies[i].Completed?
          {
            assert rest.replies[i] == replies[i + 1];
          }
        }
        Trace(replies, rest.ledger)
      else
        Trace(replies, rest.ledger)
  }

  /** Once spend has reached the ceiling, every later request is refused and the ledger is frozen. */
  lemma {:induction false} ExhaustedBudgetStaysExhausted(ledger: Ledger, catalog: Catalog, count: TokenCounter,
                                                       calls: seq<Call>)
    requires WellFormedCalls(calls, catalog)
    requires ledger.totalCost >= ledger.costLimit
    ensures Serve(ledger, catalog, count, calls).ledger == ledger
    ensures forall i :: 0 <= i < |calls| ==> Serve(ledger, catalog, count, calls).replies[i] == CostLimitExceeded
    decreases |calls|
  {
    if |calls| > 0 {
      ExhaustedBudgetStaysExhausted(ledger, catalog, count, calls[1..]);
    }
  }

  /** The upstream reports no negative token counts. */
  predicate NonNegativeUsage(upstream: Upstream) {
    upstream.Answered? ==> upstream.usage.promptTokens >= 0 && upstream.usage.completionTokens >= 0
  }

  /** With non-negative rates and usage, a request never lowers the spend. */
  lemma StepNeverRefunds(ledger: Ledger, catalog: Catalog, count: TokenCounter, call: Call)
    requires WellFormedCall(call, catalog)
    requires NonNegativeRates(catalog) && NonNegativeUsage(call.upstream)
    ensures ChatCompletionsProxy(ledger, catalog, count, call).ledger.totalCost >= ledger.totalCost
  {
    var s := ChatCompletionsProxy(ledger, catalog, count, call);
    if s.reply.Completed? {
      var pu := s.reply.proxyUsage;
      CostIsMonotone(0, 0, pu.promptTokens, pu.completionTokens, call.body.value.model, catalog, call.settleOrder);
    }
  }

  /** With non-negative rates and usage, spend never decreases over any sequence of requests. */
  lemma {:induction false} SpendNeverDecreases(ledger: Ledger, catalog: Catalog, count: TokenCounter, calls: seq<Call>)
    requires WellFormedCalls(calls, catalog)
    requires NonNegativeRates(catalog)
    requires forall i :: 0 <= i < |calls| ==> NonNegativeUsage(calls[i].upstream)
    ensures Serve(ledger, catalog, count, calls).ledger.totalCost >= ledger.totalCost
    decreases |calls|
  {
    if |calls| > 0 {
      StepNeverRefunds(ledger, catalog, count, calls[0]);
      var step := ChatCompletionsProxy(ledger, catalog, count, calls[0]);
      SpendNeverDecreases(step.ledger, catalog, count, calls[1..]);
    }
  }

  /**
    Overspend is bounded by one request: a completed request was admitted on
    its prompt estimate, so the ceiling is overshot by less than the amount
    its settled cost exceeds that estimate.
  */
  lemma OvershootBelowSettlementGap(ledger: Ledger, catalog: Catalog, count: TokenCounter, call: Call)
    requires WellFormedCall(call, catalog)
    requires PassesChecks(ledger, call) && call.upstream.Answered?
    requires ledger.totalCost + PromptCost(call.body.value, catalog, call.estimateOrder, count) < ledger.costLimit
    ensures var s := ChatCompletionsProxy(ledger, catalog, count, call);
            s.reply.Completed? &&
            s.ledger.totalCost - ledger.costLimit
              < (s.ledger.totalCost - ledger.totalCost) - PromptCost(call.body.value, catalog, call.estimateOrder, count)
  {
  }

  /**
    How far a call's settled cost exceeds its pre-flight prompt estimate when
    it carries a body and its upstream answers; zero for any other call, which
    can never add to the spend.
  */
  function SettlementGap(call: Call, catalog: Catalog, count: TokenCounter): real
    requires WellFormedCall(call, catalog)
  {
    if call.body.Some? && call.upstream.Answered? then
      var request := call.body.value;
      var counts := SettleCounts(request, call.upstream.usage, call.upstream.choices, count);
      CalculateCost(counts.prompt, counts.completion, request.model, catalog, call.settleOrder)
        - PromptCost(request, catalog, call.estimateOrder, count)
    else 0.0
  }

  /**
    Overspend over any run is bounded by the largest settlement gap: because
    the whole handler runs under the lock, every admission is checked against
    the spend of all earlier completions, so spend that starts below the
    ceiling plus a bound no request's gap exceeds stays below it.
  */
  lemma {:induction false} OvershootBoundedByLargestGap(ledger: Ledger, catalog: Catalog, count: TokenCounter,
                                                      calls: seq<Call>, bound: real)
    requires WellFormedCalls(calls, catalog)
    requires ledger.totalCost < ledger.costLimit + bound
    requires forall i :: 0 <= i < |calls| ==> SettlementGap(calls[i], catalog, count) <= bound
    ensures Serve(ledger, catalog, count, calls).ledger.totalCost < ledger.costLimit + bound
    decreases |calls|
  {
    if |calls| > 0 {
      var step := ChatCompletionsProxy(ledger, catalog, count, calls[0]);
      assert step.ledger.totalCost < ledger.costLimit + bound by {
        if step.reply.Completed? {
          assert SettlementGap(calls[0], catalog, count) <= bound;
        }
      }
      assert forall i :: 0 <= i < |calls[1..]| ==> SettlementGap(calls[1..][i], catalog, count) <= bound by {
        forall i | 0 <= i < |calls[1..]|
          ensures SettlementGap(calls[1..][i], catalog, count) <= bound
        {
          assert calls[1..][i] == calls[i + 1];
        }
      }
      OvershootBoundedByLargestGap(step.ledger, catalog, count, calls[1..], bound);
    }
  }

  /**
    A remaining budget of zero or less, as the status endpoint reports it,
    refuses every request; a completed request lowers it by exactly its
    settled cost.
  */
  lemma RemainingGatesAdmission(ledger: Ledger, catalog: Catalog, count: TokenCounter, call: Call)
    requires WellFormedCall(call, catalog)
    ensures ledger.Remaining() <= 0.0 ==> ChatCompletionsProxy(ledger, catalog, count, call).reply == CostLimitExceeded
    ensures ChatCompletionsProxy(ledger, catalog, count, call).reply.Completed? ==>
              ChatCompletionsProxy(ledger, catalog, count, call).ledger.Remaining()
                == ledger.Remaining() - CalculateCost(
                     ChatCompletionsProxy(ledger, catalog, count, call).reply.proxyUsage.promptTokens,
                     ChatCompletionsProxy(ledger, catalog, count, call).reply.proxyUsage.completionTokens,
                     call.body.value.model, catalog, call.settleOrder)
  {
  }

  /** A request refused before dispatch gets the same reply whatever the upstream would have said. */
  lemma RefusalIgnoresUpstream(ledger: Ledger, catalog: Catalog, count: TokenCounter, call: Call, other: Upstream)
    requires WellFormedCall(call, catalog)
    requires ChatCompletionsProxy(ledger, catalog, count, call).forwarded.None?
    ensures ChatCompletionsProxy(ledger, catalog, count, call.(upstream := other))
         == ChatCompletionsProxy(ledger, catalog, count, call)
  {
  }
}
