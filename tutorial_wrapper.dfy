/** The older metered client of tutorials/src/static/ChatBedrockWrapper.py.
    It keeps its own usage table with the same record updates as the main
    copy, but counts every message content as one text and prices only three
    models. */
module TutorialWrapper {
  import opened Wrappers
  import opened UsageTable
  import Pricing
  import BW = BedrockWrapper

  /** `get_token_cost` of this copy: the three-model price table. */
  function GetTokenCost(tokens: nat, modelId: string, mode: string): (r: Result<real, Pricing.CostError>)
    ensures r.Success? <==> Pricing.SupportedMode(mode) && modelId in Pricing.THREE_MODEL_COST_MAPPING
  {
    Pricing.TokenCost(tokens, modelId, mode, Pricing.THREE_MODEL_COST_MAPPING)
  }

  /** The two copies of `get_token_cost` agree on the three models this copy
      lists; the four other models priced by the main copy fail here. */
  lemma CostCopiesAgree(tokens: nat, modelId: string, mode: string)
    ensures modelId in Pricing.THREE_MODEL_COST_MAPPING ==>
      GetTokenCost(tokens, modelId, mode) == Pricing.GetTokenCost(tokens, modelId, mode)
    ensures Pricing.SupportedMode(mode) && modelId in Pricing.COST_MAPPING && modelId !in Pricing.THREE_MODEL_COST_MAPPING ==>
      GetTokenCost(tokens, modelId, mode) == Failure(Pricing.UnknownModel(modelId))
      && Pricing.GetTokenCost(tokens, modelId, mode).Success?
  {
    Pricing.PriceTablesAgree(modelId);
  }

  function PromptCost(tokens: nat, modelId: string): Option<real> {
    GetTokenCost(tokens, modelId, "prompt").ToOption()
  }

  function CompletionCost(tokens: nat, modelId: string): Option<real> {
    GetTokenCost(tokens, modelId, "completion").ToOption()
  }

  /** What `__get_tokens_count` of this copy computes: prompt, system text and
      each message's content, handed to the tokenizer as they are. */
  function TokensCount(count: string -> nat, prompt: Option<string>, system: Option<string>,
                       messages: Option<seq<string>>): nat {
    BW.OptionTokens(count, prompt) + BW.OptionTokens(count, system)
    + (if messages.Some? then BW.SumCounts(count, messages.value) else 0)
  }

  /** The counted texts of a request, in order. */
  function PromptTexts(prompt: Option<string>, system: Option<string>, messages: Option<seq<string>>): seq<string> {
    BW.OptionTexts(prompt) + BW.OptionTexts(system) + (if messages.Some? then messages.value else [])
  }

  /** The token count is the tokenizer applied to prompt, system text and each
      message content, summed; absent parts contribute nothing. */
  lemma TokensCountIsSumOverTexts(count: string -> nat, prompt: Option<string>, system: Option<string>,
                                  messages: Option<seq<string>>)
    ensures TokensCount(count, prompt, system, messages) == BW.SumCounts(count, PromptTexts(prompt, system, messages))
  {
    var ms := if messages.Some? then messages.value else [];
    BW.SumCountsAppend(count, BW.OptionTexts(prompt) + BW.OptionTexts(system), ms);
    BW.SumCountsAppend(count, BW.OptionTexts(prompt), BW.OptionTexts(system));
  }

  /** Message contents as the main copy sees string contents. */
  function AsContents(ms: seq<string>): seq<BW.Content> {
    if ms == [] then [] else AsContents(ms[..|ms| - 1]) + [BW.Text(ms[|ms| - 1])]
  }

  lemma {:induction false} MessagesCountLikeMain(count: string -> nat, ms: seq<string>)
    ensures BW.MessagesTokens(count, AsContents(ms)) == BW.SumCounts(count, ms)
  {
    if ms != [] {
      var init := ms[..|ms| - 1];
      MessagesCountLikeMain(count, init);
      var cs := AsContents(ms);
      assert cs[..|cs| - 1] == AsContents(init);
    }
  }

  /** On string contents both copies of `__get_tokens_count` count alike. */
  lemma TokensCountLikeMain(count: string -> nat, prompt: Option<string>, system: Option<string>,
                            messages: Option<seq<string>>)
    ensures TokensCount(count, prompt, system, messages)
            == BW.TokensCount(count, prompt, system, if messages.Some? then Some(AsContents(messages.value)) else None)
  {
    if messages.Some? {
      MessagesCountLikeMain(count, messages.value);
    }
  }

  class ChatBedrockWrapper {
    const callId: string
    const modelId: string
    /** This copy's `TOKEN_COUNTER`. */
    const counter: TokenCounter
    /** `get_num_tokens` of the wrapped client. */
    const numTokens: string -> nat

    constructor (callId: string, modelId: string, counter: TokenCounter, numTokens: string -> nat)
      ensures this.callId == callId && this.modelId == modelId
      ensures this.counter == counter && this.numTokens == numTokens
    {
      this.callId := callId;
      this.modelId := modelId;
      this.counter := counter;
      this.numTokens := numTokens;
    }

    /** `__get_tokens_count` of this copy. */
    method GetTokensCount(prompt: Option<string>, system: Option<string>, messages: Option<seq<string>>)
      returns (tokens: nat)
      ensures tokens == TokensCount(numTokens, prompt, system, messages)
    {
      tokens := 0;
      if prompt.Some? {
        tokens := tokens + numTokens(prompt.value);
      }
      if system.Some? {
        tokens := tokens + numTokens(system.value);
      }
      if messages.Some? && |messages.value| > 0 {
        var ms := messages.value;
        ghost var base := tokens;
        var i := 0;
        while i < |ms|
          invariant 0 <= i <= |ms|
          invariant tokens == base + BW.SumCounts(numTokens, ms[..i])
        {
          tokens := tokens + numTokens(ms[i]);
          BW.SumCountsSnoc(numTokens, ms, i);
          i := i + 1;
        }
        assert ms[..i] == ms;
      }
    }

    /** `_update_token_counter_prompt`: an unpriced model raises after the
        token counters and the request count were bumped. */
    method UpdateTokenCounterPrompt(prompt: Option<string>, system: Option<string>, messages: Option<seq<string>>)
      returns (outcome: Outcome<Pricing.CostError>)
      modifies counter
      ensures var tokens := TokensCount(numTokens, prompt, system, messages);
        counter.table == PromptUpdated(old(counter.table), callId, modelId, tokens, PromptCost(tokens, modelId))
      ensures outcome == if modelId in Pricing.THREE_MODEL_COST_MAPPING then Pass else Fail(Pricing.UnknownModel(modelId))
    {
      var tokens := GetTokensCount(prompt, system, messages);
      var cost := GetTokenCost(tokens, modelId, "prompt");
      counter.RecordPrompt(callId, modelId, tokens, cost.ToOption());
      outcome := if cost.Success? then Pass else Fail(cost.error);
    }

    /** `_update_token_counter_completion`. */
    method UpdateTokenCounterCompletion(text: string) returns (outcome: Outcome<Pricing.CostError>)
      modifies counter
      ensures counter.table == CompletionUpdated(old(counter.table), callId, modelId,
                                                 numTokens(text), CompletionCost(numTokens(text), modelId))
      ensures outcome == if modelId in Pricing.THREE_MODEL_COST_MAPPING then Pass else Fail(Pricing.UnknownModel(modelId))
    {
      var tokens := numTokens(text);
      var cost := GetTokenCost(tokens, modelId, "completion");
      counter.RecordCompletion(callId, modelId, tokens, cost.ToOption());
      outcome := if cost.Success? then Pass else Fail(cost.error);
    }

    /** `invoke`: the input's message contents are the prompt, the reply's
        text (`''` when not a string) the completion. */
    method Invoke(contents: seq<string>, reply: Result<BW.AIMessage, string>)
      returns (r: Result<BW.AIMessage, BW.InvokeError>)
      modifies counter
      ensures var tokens := TokensCount(numTokens, None, None, Some(contents));
        var t1 := PromptUpdated(old(counter.table), callId, modelId, tokens, PromptCost(tokens, modelId));
        && (modelId !in Pricing.THREE_MODEL_COST_MAPPING ==>
              r == Failure(BW.PricingError(Pricing.UnknownModel(modelId))) && counter.table == t1)
        && (modelId in Pricing.THREE_MODEL_COST_MAPPING && reply.Failure? ==>
              r == Failure(BW.ClientError(reply.error)) && counter.table == t1)
        && (modelId in Pricing.THREE_MODEL_COST_MAPPING && reply.Success? ==>
              var n := numTokens(BW.ReplyText(reply.value));
              r == Success(reply.value)
              && counter.table == CompletionUpdated(t1, callId, modelId, n, CompletionCost(n, modelId)))
    {
      var o := UpdateTokenCounterPrompt(None, None, Some(contents));
      if o.Fail? {
        return Failure(BW.PricingError(o.error));
      }
      if reply.Failure? {
        return Failure(BW.ClientError(reply.error));
      }
      var ret := reply.value;
      var content := BW.ReplyText(ret);
      o := UpdateTokenCounterCompletion(content);
      r := Success(ret);
    }

    /** `_prepare_input_and_invoke`: returns the client's `(text, metadata)`. */
    method PrepareInputAndInvoke<R>(prompt: Option<string>, system: Option<string>, messages: Option<seq<string>>,
                                    reply: Result<(string, R), string>)
      returns (r: Result<(string, R), BW.InvokeError>)
      modifies counter
      ensures var tokens := TokensCount(numTokens, prompt, system, messages);
        var t1 := PromptUpdated(old(counter.table), callId, modelId, tokens, PromptCost(tokens, modelId));
        && (modelId !in Pricing.THREE_MODEL_COST_MAPPING ==>
              r == Failure(BW.PricingError(Pricing.UnknownModel(modelId))) && counter.table == t1)
        && (modelId in Pricing.THREE_MODEL_COST_MAPPING && reply.Failure? ==>
              r == Failure(BW.ClientError(reply.error)) && counter.table == t1)
        && (modelId in Pricing.THREE_MODEL_COST_MAPPING && reply.Success? ==>
              var n := numTokens(reply.value.0);
              r == Success(reply.value)
              && counter.table == CompletionUpdated(t1, callId, modelId, n, CompletionCost(n, modelId)))
    {
      var o := UpdateTokenCounterPrompt(prompt, system, messages);
      if o.Fail? {
        return Failure(BW.PricingError(o.error));
      }
      if reply.Failure? {
        return Failure(BW.ClientError(reply.error));
      }
      var text := reply.value.0;
      o := UpdateTokenCounterCompletion(text);
      r := Success(reply.value);
    }

    /** The generator `inner` of both stream variants of this copy, asked for
        `consumed` chunks: each chunk's `text` is counted as it is yielded,
        and an exception of the client's stream reaches the consumer with the
        chunks before it counted. It only runs once the prompt update has
        priced the model and created its record. */
    method StreamInner(texts: BW.ClientStream<string>, consumed: nat) returns (r: Result<seq<string>, BW.InvokeError>)
      requires modelId in Pricing.THREE_MODEL_COST_MAPPING
      requires Get(Usage(counter.table, callId), modelId).Some?
      modifies counter
      ensures r == BW.StreamOutcome(texts, consumed)
      ensures counter.table == Pricing.AfterStream(old(counter.table), callId, modelId, Pricing.THREE_MODEL_COST_MAPPING,
                                                   BW.SumCounts(numTokens, texts.chunks[..BW.Pulled(texts, consumed)]))
    {
      ghost var t1 := counter.table;
      Pricing.AfterStreamStart(t1, callId, modelId, Pricing.THREE_MODEL_COST_MAPPING);
      var chunks := texts.chunks;
      var i := 0;
      while i < |chunks| && i < consumed
        invariant 0 <= i <= |chunks| && i <= consumed
        invariant counter.table == Pricing.AfterStream(t1, callId, modelId, Pricing.THREE_MODEL_COST_MAPPING,
                                                       BW.SumCounts(numTokens, chunks[..i]))
      {
        ghost var before := counter.table;
        var o := UpdateTokenCounterCompletion(chunks[i]);
        assert CompletionCost(numTokens(chunks[i]), modelId)
            == Pricing.TokenCost(numTokens(chunks[i]), modelId, "completion", Pricing.THREE_MODEL_COST_MAPPING).ToOption();
        BW.TextStreamStep(t1, before, counter.table, callId, modelId, Pricing.THREE_MODEL_COST_MAPPING, numTokens, chunks, i);
        i := i + 1;
      }
      if i < consumed && texts.raised.Some? {
        r := Failure(BW.ClientError(texts.raised.value));
      } else {
        r := Success(chunks[..i]);
      }
    }

    /** `_prepare_input_and_invoke_stream`: the prompt is recorded before any
        chunk; a client that raises when asked for the stream leaves only the
        prompt counted; otherwise each chunk is counted as `inner` yields it. */
    method PrepareInputAndInvokeStream(prompt: Option<string>, system: Option<string>, messages: Option<seq<string>>,
                                       texts: Result<BW.ClientStream<string>, string>, consumed: nat)
      returns (r: Result<seq<string>, BW.InvokeError>)
      modifies counter
      ensures var tokens := TokensCount(numTokens, prompt, system, messages);
        var t1 := PromptUpdated(old(counter.table), callId, modelId, tokens, PromptCost(tokens, modelId));
        && (modelId !in Pricing.THREE_MODEL_COST_MAPPING ==>
              r == Failure(BW.PricingError(Pricing.UnknownModel(modelId))) && counter.table == t1)
        && (modelId in Pricing.THREE_MODEL_COST_MAPPING && texts.Failure? ==>
              r == Failure(BW.ClientError(texts.error)) && counter.table == t1)
        && (modelId in Pricing.THREE_MODEL_COST_MAPPING && texts.Success? ==>
              var s := texts.value;
              r == BW.StreamOutcome(s, consumed)
              && counter.table == Pricing.AfterStream(t1, callId, modelId, Pricing.THREE_MODEL_COST_MAPPING,
                                                      BW.SumCounts(numTokens, s.chunks[..BW.Pulled(s, consumed)])))
    {
      ghost var t0 := counter.table;
      var o := UpdateTokenCounterPrompt(prompt, system, messages);
      if o.Fail? {
        return Failure(BW.PricingError(o.error));
      }
      if texts.Failure? {
        return Failure(BW.ClientError(texts.error));
      }
      ghost var tokens := TokensCount(numTokens, prompt, system, messages);
      StoredFrame(t0, callId, modelId, AfterPrompt(Record(t0, callId, modelId), tokens, PromptCost(tokens, modelId)));
      r := StreamInner(texts.value, consumed);
    }

    /** `_aprepare_input_and_invoke_stream`: the prompt alone is recorded; a
        client that raises when asked for the stream leaves only that;
        otherwise each chunk is counted as the asynchronous `inner` yields it. */
    method AsyncPrepareInputAndInvokeStream(prompt: string, texts: Result<BW.ClientStream<string>, string>, consumed: nat)
      returns (r: Result<seq<string>, BW.InvokeError>)
      modifies counter
      ensures var tokens := numTokens(prompt);
        var t1 := PromptUpdated(old(counter.table), callId, modelId, tokens, PromptCost(tokens, modelId));
        && (modelId !in Pricing.THREE_MODEL_COST_MAPPING ==>
              r == Failure(BW.PricingError(Pricing.UnknownModel(modelId))) && counter.table == t1)
        && (modelId in Pricing.THREE_MODEL_COST_MAPPING && texts.Failure? ==>
              r == Failure(BW.ClientError(texts.error)) && counter.table == t1)
        && (modelId in Pricing.THREE_MODEL_COST_MAPPING && texts.Success? ==>
              var s := texts.value;
              r == BW.StreamOutcome(s, consumed)
              && counter.table == Pricing.AfterStream(t1, callId, modelId, Pricing.THREE_MODEL_COST_MAPPING,
                                                      BW.SumCounts(numTokens, s.chunks[..BW.Pulled(s, consumed)])))
    {
      ghost var t0 := counter.table;
      var o := UpdateTokenCounterPrompt(Some(prompt), None, None);
      if o.Fail? {
        return Failure(BW.PricingError(o.error));
      }
      if texts.Failure? {
        return Failure(BW.ClientError(texts.error));
      }
      ghost var tokens := TokensCount(numTokens, Some(prompt), None, None);
      StoredFrame(t0, callId, modelId, AfterPrompt(Record(t0, callId, modelId), tokens, PromptCost(tokens, modelId)));
      r := StreamInner(texts.value, consumed);
    }
  }
}
