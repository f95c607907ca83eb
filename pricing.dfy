/** Token pricing: `get_token_cost` of both wrapper copies and
    `compute_llm_call_cost`. Prices are US dollars per 1000 tokens, kept as
    exact reals. */
module Pricing {
  import opened Wrappers
  import opened UsageTable

  datatype Price = Price(input: real, output: real)

  /** Why a cost could not be computed: the mode assertion failed, the model
      has no price (a `KeyError`), or there is no usage record to price. */
  datatype CostError =
    | UnsupportedMode(mode: string)
    | UnknownModel(modelId: string)
    | NoRecord(callId: string, modelId: string)

  /** The `cost_mapping` of `get_token_cost` in src/static/ChatBedrockWrapper.py. */
  const COST_MAPPING: map<string, Price> := map[
    "anthropic.claude-3-5-sonnet-20240620-v1:0" := Price(0.003, 0.015),
    "anthropic.claude-3-haiku-20240307-v1:0" := Price(0.00025, 0.00125),
    "amazon.titan-text-premier-v1:0" := Price(0.0005, 0.0015),
    "meta.llama3-8b-instruct-v1:0" := Price(0.0003, 0.0006),
    "meta.llama3-70b-instruct-v1:0" := Price(0.00265, 0.0035),
    "mistral.mistral-7b-instruct-v0:2" := Price(0.00015, 0.0002),
    "mistral.mixtral-8x7b-instruct-v0:1" := Price(0.00045, 0.0007)
  ]

  /** The three-model `cost_mapping` shared by `compute_llm_call_cost` and the
      tutorial copy's `get_token_cost`. */
  const THREE_MODEL_COST_MAPPING: map<string, Price> := map[
    "anthropic.claude-3-5-sonnet-20240620-v1:0" := Price(0.003, 0.015),
    "anthropic.claude-3-haiku-20240307-v1:0" := Price(0.00025, 0.00125),
    "amazon.titan-text-premier-v1:0" := Price(0.0005, 0.0015)
  ]

  /** The modes the assertion of `get_token_cost` admits. */
  predicate SupportedMode(mode: string) {
    mode == "prompt" || mode == "completion" || mode == "input" || mode == "output"
  }

  /** The price column a mode reads: `prompt` becomes `input`, `completion`
      becomes `output`, and the other two name their column directly. */
  function Column(mode: string): string {
    if mode == "prompt" then "input"
    else if mode == "completion" then "output"
    else mode
  }

  function ColumnPrice(p: Price, column: string): real {
    if column == "input" then p.input else p.output
  }

  /** `tokens / 1000 * cost_mapping[model_id][mode]` after the mode assertion
      and the mode mapping, over a given price table. */
  function TokenCost(tokens: nat, modelId: string, mode: string, prices: map<string, Price>): (r: Result<real, CostError>)
    ensures !SupportedMode(mode) ==> r == Failure(UnsupportedMode(mode))
    ensures SupportedMode(mode) && modelId !in prices ==> r == Failure(UnknownModel(modelId))
    ensures r.Success? <==> SupportedMode(mode) && modelId in prices
    ensures r.Success? && (mode == "prompt" || mode == "input") ==>
      r.value == tokens as real / 1000.0 * prices[modelId].input
    ensures r.Success? && (mode == "completion" || mode == "output") ==>
      r.value == tokens as real / 1000.0 * prices[modelId].output
  {
    if !SupportedMode(mode) then Failure(UnsupportedMode(mode))
    else if modelId !in prices then Failure(UnknownModel(modelId))
    else Success(tokens as real / 1000.0 * ColumnPrice(prices[modelId], Column(mode)))
  }

  /** `get_token_cost` of src/static/ChatBedrockWrapper.py. */
  function GetTokenCost(tokens: nat, modelId: string, mode: string): (r: Result<real, CostError>)
    ensures r.Success? <==> SupportedMode(mode) && modelId in COST_MAPPING
  {
    TokenCost(tokens, modelId, mode, COST_MAPPING)
  }

  /** Cost is additive in tokens for a fixed model and mode, so doubling the
      tokens doubles the cost; `prompt` prices like `input` and `completion`
      like `output`. */
  lemma TokenCostLinear(a: nat, b: nat, modelId: string, mode: string, prices: map<string, Price>)
    requires SupportedMode(mode) && modelId in prices
    ensures TokenCost(a + b, modelId, mode, prices).value
            == TokenCost(a, modelId, mode, prices).value + TokenCost(b, modelId, mode, prices).value
    ensures TokenCost(2 * a, modelId, mode, prices).value == 2.0 * TokenCost(a, modelId, mode, prices).value
    ensures TokenCost(a, modelId, "prompt", prices) == TokenCost(a, modelId, "input", prices)
    ensures TokenCost(a, modelId, "completion", prices) == TokenCost(a, modelId, "output", prices)
  {
    var p := ColumnPrice(prices[modelId], Column(mode));
    TokenCostValue(a, modelId, mode, prices);
    TokenCostValue(b, modelId, mode, prices);
    TokenCostValue(a + b, modelId, mode, prices);
    TokenCostValue(2 * a, modelId, mode, prices);
    assert 2 * a == a + a;
    PerThousandLinear(a, b, p);
    PerThousandLinear(a, a, p);
    ModeAliases(a, modelId, prices);
  }

  lemma TokenCostValue(n: nat, modelId: string, mode: string, prices: map<string, Price>)
    requires SupportedMode(mode) && modelId in prices
    ensures TokenCost(n, modelId, mode, prices).value == n as real / 1000.0 * ColumnPrice(prices[modelId], Column(mode))
  {
  }

  lemma ModeAliases(a: nat, modelId: string, prices: map<string, Price>)
    ensures TokenCost(a, modelId, "prompt", prices) == TokenCost(a, modelId, "input", prices)
    ensures TokenCost(a, modelId, "completion", prices) == TokenCost(a, modelId, "output", prices)
  {
    assert Column("prompt") == "input" && Column("input") == "input";
    assert Column("completion") == "output" && Column("output") == "output";
  }

  lemma PerThousandLinear(a: nat, b: nat, p: real)
    ensures (a + b) as real / 1000.0 * p == a as real / 1000.0 * p + b as real / 1000.0 * p
  {
    assert (a + b) as real == a as real + b as real;
  }

  /** A record whose cost is exactly what its token counts are worth. */
  predicate CostTracks(m: Metrics, p: Price) {
    m.totalCost == m.promptTokens as real / 1000.0 * p.input + m.completionTokens as real / 1000.0 * p.output
  }

  /** Starting from the zero record, the cost keeps tracking the token counts
      across every prompt and completion update priced by the same table. */
  lemma CostTracksAcrossUpdates(m: Metrics, tokens: nat, modelId: string, prices: map<string, Price>)
    requires modelId in prices
    ensures CostTracks(EmptyMetrics, prices[modelId])
    ensures CostTracks(m, prices[modelId]) ==>
      CostTracks(AfterPrompt(m, tokens, TokenCost(tokens, modelId, "prompt", prices).ToOption()), prices[modelId])
    ensures CostTracks(m, prices[modelId]) ==>
      CostTracks(AfterCompletion(m, tokens, TokenCost(tokens, modelId, "completion", prices).ToOption()), prices[modelId])
  {
    var p := prices[modelId];
    assert (m.promptTokens + tokens) as real / 1000.0 * p.input
        == m.promptTokens as real / 1000.0 * p.input + tokens as real / 1000.0 * p.input;
    assert (m.completionTokens + tokens) as real / 1000.0 * p.output
        == m.completionTokens as real / 1000.0 * p.output + tokens as real / 1000.0 * p.output;
  }

  /** `compute_llm_call_cost(model_id, call_id)`: the record must exist (line
      199 raises otherwise), then the model must be one of the three priced
      there (line 205 raises otherwise). */
  function ComputeLlmCallCost(t: Table, modelId: string, callId: string): (r: Result<real, CostError>)
    ensures Get(Usage(t, callId), modelId).None? ==> r == Failure(NoRecord(callId, modelId))
    ensures Get(Usage(t, callId), modelId).Some? && modelId !in THREE_MODEL_COST_MAPPING ==>
      r == Failure(UnknownModel(modelId))
    ensures r.Success? <==> Get(Usage(t, callId), modelId).Some? && modelId in THREE_MODEL_COST_MAPPING
  {
    match Get(Usage(t, callId), modelId)
    case None => Failure(NoRecord(callId, modelId))
    case Some(counts) =>
      if modelId !in THREE_MODEL_COST_MAPPING then Failure(UnknownModel(modelId))
      else
        var price := THREE_MODEL_COST_MAPPING[modelId];
        var inputCost := counts.promptTokens as real / 1000.0 * price.input;
        var outputCost := counts.completionTokens as real / 1000.0 * price.output;
        Success(inputCost + outputCost)
  }

  /** The three-model table agrees with the seven-model one where both list a model. */
  lemma PriceTablesAgree(modelId: string)
    ensures modelId in THREE_MODEL_COST_MAPPING ==>
      modelId in COST_MAPPING && COST_MAPPING[modelId] == THREE_MODEL_COST_MAPPING[modelId]
  {
  }

  /** For the three models in both tables, `compute_llm_call_cost` recomputes
      exactly the `total_cost` that the updates accumulated, as long as that
      record's cost tracks its token counts. */
  lemma ComputeLlmCallCostAgrees(t: Table, modelId: string, callId: string)
    requires modelId in THREE_MODEL_COST_MAPPING
    requires Get(Usage(t, callId), modelId).Some?
    requires CostTracks(Get(Usage(t, callId), modelId).value, COST_MAPPING[modelId])
    ensures ComputeLlmCallCost(t, modelId, callId) == Success(Get(Usage(t, callId), modelId).value.totalCost)
  {
    PriceTablesAgree(modelId);
    var m := Get(Usage(t, callId), modelId).value;
    var price := THREE_MODEL_COST_MAPPING[modelId];
    assert price == COST_MAPPING[modelId];
    assert ComputeLlmCallCost(t, modelId, callId)
        == Success(m.promptTokens as real / 1000.0 * price.input + m.completionTokens as real / 1000.0 * price.output);
  }

  /** The haiku prices of a 10-token prompt and a 5-token completion. */
  lemma HaikuCosts()
    ensures GetTokenCost(10, "anthropic.claude-3-haiku-20240307-v1:0", "prompt") == Success(10.0 / 1000.0 * 0.00025)
    ensures GetTokenCost(5, "anthropic.claude-3-haiku-20240307-v1:0", "completion") == Success(5.0 / 1000.0 * 0.00125)
  {
    assert COST_MAPPING["anthropic.claude-3-haiku-20240307-v1:0"] == Price(0.00025, 0.00125);
  }

  /** The example usage of a haiku call: a 10-token prompt and a 5-token
      completion on a fresh record. */
  lemma HaikuExample(t: Table)
    requires Get(Usage(t, "A"), "anthropic.claude-3-haiku-20240307-v1:0").None?
    ensures var haiku := "anthropic.claude-3-haiku-20240307-v1:0";
      var t1 := PromptUpdated(t, "A", haiku, 10, GetTokenCost(10, haiku, "prompt").ToOption());
      var t2 := CompletionUpdated(t1, "A", haiku, 5, GetTokenCost(5, haiku, "completion").ToOption());
      Get(Usage(t2, "A"), haiku)
        == Some(Metrics(15, 10, 5, 1, 10.0 / 1000.0 * 0.00025 + 5.0 / 1000.0 * 0.00125))
  {
    var haiku := "anthropic.claude-3-haiku-20240307-v1:0";
    HaikuCosts();
    var m1 := AfterPrompt(EmptyMetrics, 10, Some(10.0 / 1000.0 * 0.00025));
    var t1 := Stored(t, "A", haiku, m1);
    RecordAfterStored(t, "A", haiku, m1);
    var m2 := AfterCompletion(m1, 5, Some(5.0 / 1000.0 * 0.00125));
    StoredFrame(t1, "A", haiku, m2);
  }

  // ---------------------------------------------------------------------
  // Completion updates priced by one table, as a stream performs them

  /** The table once `n` streamed completion tokens were counted against a
      model, priced by `prices`. */
  function AfterStream(t: Table, callId: string, modelId: string, prices: map<string, Price>, n: nat): Table {
    CompletionUpdated(t, callId, modelId, n, TokenCost(n, modelId, "completion", prices).ToOption())
  }

  /** Two completion updates of a priced model amount to one update by the
      sum of their tokens. */
  lemma CompletionsAdd(t: Table, callId: string, modelId: string, prices: map<string, Price>, a: nat, b: nat)
    requires modelId in prices
    ensures CompletionUpdated(AfterStream(t, callId, modelId, prices, a), callId, modelId, b,
                              TokenCost(b, modelId, "completion", prices).ToOption())
            == AfterStream(t, callId, modelId, prices, a + b)
  {
    var ca := TokenCost(a, modelId, "completion", prices).value;
    var cb := TokenCost(b, modelId, "completion", prices).value;
    TokenCostLinear(a, b, modelId, "completion", prices);
    CompletionsCompose(t, callId, modelId, a, b, ca, cb);
  }

  /** Before any chunk, a stream has added nothing to an existing record. */
  lemma AfterStreamStart(t: Table, callId: string, modelId: string, prices: map<string, Price>)
    requires modelId in prices
    requires Get(Usage(t, callId), modelId).Some?
    ensures AfterStream(t, callId, modelId, prices, 0) == t
  {
    assert TokenCost(0, modelId, "completion", prices) == Success(0.0);
    assert AfterCompletion(Record(t, callId, modelId), 0, Some(0.0)) == Record(t, callId, modelId);
    StoredSame(t, callId, modelId);
  }
}
