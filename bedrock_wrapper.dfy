/** The metered LLM client of src/static/ChatBedrockWrapper.py: every call is
    counted against `(call_id, model_id)` in the shared usage table.

    The wrapped Bedrock client is not modelled: what it returns (a message, a
    text, a stream of chunks, or an error) is a parameter, and its tokenizer
    `get_num_tokens` is an arbitrary function from text to a token count. */
module BedrockWrapper {
  import opened Wrappers
  import opened UsageTable
  import opened Pricing

  /** One element of a list-shaped message content, a dict that may have an
      `input` and an `output` key; each value is given by its `str()` text. */
  datatype Part = Part(input: Option<string>, output: Option<string>)

  /** A message's `content`: a string, a list of parts (a tool-call
      transcript), or any other value, given by its `str()` text. */
  datatype Content = Text(text: string) | Parts(parts: seq<Part>) | Other(rendered: string)

  // ---------------------------------------------------------------------
  // What `__get_tokens_count` computes

  function OptionTokens(count: string -> nat, s: Option<string>): nat {
    if s.Some? then count(s.value) else 0
  }

  function PartTokens(count: string -> nat, p: Part): nat {
    OptionTokens(count, p.input) + OptionTokens(count, p.output)
  }

  function PartsTokens(count: string -> nat, ps: seq<Part>): nat {
    if ps == [] then 0 else PartsTokens(count, ps[..|ps| - 1]) + PartTokens(count, ps[|ps| - 1])
  }

  function ContentTokens(count: string -> nat, c: Content): nat {
    match c
    case Text(s) => count(s)
    case Parts(ps) => PartsTokens(count, ps)
    case Other(r) => count(r)
  }

  function MessagesTokens(count: string -> nat, ms: seq<Content>): nat {
    if ms == [] then 0 else MessagesTokens(count, ms[..|ms| - 1]) + ContentTokens(count, ms[|ms| - 1])
  }

  // An independent description: the texts handed to the tokenizer, in order.

  function OptionTexts(s: Option<string>): seq<string> {
    if s.Some? then [s.value] else []
  }

  function PartsTexts(ps: seq<Part>): seq<string> {
    if ps == [] then [] else PartsTexts(ps[..|ps| - 1]) + OptionTexts(ps[|ps| - 1].input) + OptionTexts(ps[|ps| - 1].output)
  }

  function ContentTexts(c: Content): seq<string> {
    match c
    case Text(s) => [s]
    case Parts(ps) => PartsTexts(ps)
    case Other(r) => [r]
  }

  function MessagesTexts(ms: seq<Content>): seq<string> {
    if ms == [] then [] else MessagesTexts(ms[..|ms| - 1]) + ContentTexts(ms[|ms| - 1])
  }

  /** Absent prompt, system text or message list contribute no text; a string
      content is one text, a part contributes `str(input)` and `str(output)`
      for the keys it has, and any other content its `str()`. */
  function PromptTexts(prompt: Option<string>, system: Option<string>, messages: Option<seq<Content>>): seq<string> {
    OptionTexts(prompt) + OptionTexts(system) + (if messages.Some? then MessagesTexts(messages.value) else [])
  }

  function SumCounts(count: string -> nat, ss: seq<string>): nat {
    if ss == [] then 0 else SumCounts(count, ss[..|ss| - 1]) + count(ss[|ss| - 1])
  }

  lemma {:induction false} SumCountsAppend(count: string -> nat, a: seq<string>, b: seq<string>)
    ensures SumCounts(count, a + b) == SumCounts(count, a) + SumCounts(count, b)
    decreases |b|
  {
    if b == [] {
      assert a + b == a;
    } else {
      assert (a + b)[..|a + b| - 1] == a + b[..|b| - 1];
      SumCountsAppend(count, a, b[..|b| - 1]);
    }
  }

  lemma {:induction false} PartsTokensAsTexts(count: string -> nat, ps: seq<Part>)
    ensures PartsTokens(count, ps) == SumCounts(count, PartsTexts(ps))
    decreases |ps|
  {
    if ps != [] {
      var init, last := ps[..|ps| - 1], ps[|ps| - 1];
      PartsTokensAsTexts(count, init);
      SumCountsAppend(count, PartsTexts(init) + OptionTexts(last.input), OptionTexts(last.output));
      SumCountsAppend(count, PartsTexts(init), OptionTexts(last.input));
    }
  }

  lemma {:induction false} MessagesTokensAsTexts(count: string -> nat, ms: seq<Content>)
    ensures MessagesTokens(count, ms) == SumCounts(count, MessagesTexts(ms))
    decreases |ms|
  {
    if ms != [] {
      var init, last := ms[..|ms| - 1], ms[|ms| - 1];
      MessagesTokensAsTexts(count, init);
      SumCountsAppend(count, MessagesTexts(init), ContentTexts(last));
      match last
      case Parts(parts) => PartsTokensAsTexts(count, parts);
      case Text(s) => assert SumCounts(count, [s]) == count(s);
      case Other(r) => assert SumCounts(count, [r]) == count(r);
    }
  }

  lemma OptionTokensAsTexts(count: string -> nat, s: Option<string>)
    ensures OptionTokens(count, s) == SumCounts(count, OptionTexts(s))
  {
    if s.Some? {
      assert OptionTexts(s)[..0] == [];
    }
  }

  lemma PromptTokensAsTexts(count: string -> nat, prompt: Option<string>, system: Option<string>,
                            messages: Option<seq<Content>>)
    ensures OptionTokens(count, prompt) + OptionTokens(count, system)
            + (if messages.Some? then MessagesTokens(count, messages.value) else 0)
            == SumCounts(count, PromptTexts(prompt, system, messages))
  {
    var ms := messages.GetOr([]);
    var head := OptionTexts(prompt) + OptionTexts(system);
    OptionTokensAsTexts(count, prompt);
    OptionTokensAsTexts(count, system);
    MessagesTokensAsTexts(count, ms);
    SumCountsAppend(count, OptionTexts(prompt), OptionTexts(system));
    SumCountsAppend(count, head, MessagesTexts(ms));
    assert PromptTexts(prompt, system, messages) == head + MessagesTexts(ms);
    assert (if messages.Some? then MessagesTokens(count, messages.value) else 0) == MessagesTokens(count, ms);
  }

  /** The prompt's token count: prompt, system text and every message. It is
      the tokenizer applied to each text the prompt is made of, summed. */
  function TokensCount(count: string -> nat, prompt: Option<string>, system: Option<string>,
                       messages: Option<seq<Content>>): (r: nat)
    ensures r == SumCounts(count, PromptTexts(prompt, system, messages))
  {
    PromptTokensAsTexts(count, prompt, system, messages);
    OptionTokens(count, prompt) + OptionTokens(count, system)
    + (if messages.Some? then MessagesTokens(count, messages.value) else 0)
  }

  // ---------------------------------------------------------------------
  // Responses of the wrapped client

  /** A streamed chunk: a text generation chunk, a chat message chunk, or a
      chunk of any other class. */
  datatype Chunk = GenerationChunk(text: string) | AIMessageChunk(content: string) | OtherChunk

  /** The text `__process_chunk_content` counts, if any. */
  function ChunkText(c: Chunk): Option<string> {
    match c
    case GenerationChunk(text) => Some(text)
    case AIMessageChunk(content) => Some(content)
    case OtherChunk => None
  }

  /** The completion tokens of a prefix of the stream. */
  function ChunksTokens(count: string -> nat, cs: seq<Chunk>): nat {
    if cs == [] then 0 else ChunksTokens(count, cs[..|cs| - 1]) + OptionTokens(count, ChunkText(cs[|cs| - 1]))
  }

  /** What iterating the wrapped client's stream gives: its chunks, then
      either the end of the stream or, when `raised` holds a message, an
      exception in place of the end. */
  datatype ClientStream<C> = ClientStream(chunks: seq<C>, raised: Option<string>)

  /** How many chunks a consumer asking for `consumed` of them receives. */
  function Pulled<C>(s: ClientStream<C>, consumed: nat): (k: nat)
    ensures k <= consumed && k <= |s.chunks|
    ensures k < consumed ==> k == |s.chunks|
  {
    if consumed < |s.chunks| then consumed else |s.chunks|
  }

  /** What the consumer of a wrapping generator sees: the chunks it pulled,
      or, once it asks past the last chunk of a stream that raises, that
      exception (`inner` does not catch it). */
  function StreamOutcome<C>(s: ClientStream<C>, consumed: nat): (r: Result<seq<C>, InvokeError>)
    ensures r.Failure? <==> consumed > |s.chunks| && s.raised.Some?
    ensures r.Failure? ==> r.error == ClientError(s.raised.value)
    ensures r.Success? ==> r.value == s.chunks[..Pulled(s, consumed)] && |r.value| <= consumed
  {
    if consumed > |s.chunks| && s.raised.Some? then Failure(ClientError(s.raised.value))
    else Success(s.chunks[..Pulled(s, consumed)])
  }

  /** The reply message of `invoke`. */
  datatype AIMessage = AIMessage(content: Content)

  /** `ret.content if isinstance(ret.content, str) else ''`. */
  function ReplyText(m: AIMessage): string {
    if m.content.Text? then m.content.text else ""
  }

  /** An exception out of a wrapped call: pricing failed, or the wrapped
      client raised (propagated unchanged). */
  datatype InvokeError = PricingError(cause: CostError) | ClientError(message: string)

  /** Cost of the prompt update for a given token count. */
  function PromptCost(tokens: nat, modelId: string): Option<real> {
    GetTokenCost(tokens, modelId, "prompt").ToOption()
  }

  /** Cost of a completion update for a given token count. */
  function CompletionCost(tokens: nat, modelId: string): Option<real> {
    GetTokenCost(tokens, modelId, "completion").ToOption()
  }

  /** The loop step of the stream: one more chunk moves the table from the
      state after `seen` streamed tokens to the state after `seen` plus the
      chunk's tokens. */
  lemma AfterChunk(t1: Table, before: Table, after: Table, callId: string, modelId: string,
                   count: string -> nat, chunk: Chunk, seen: nat)
    requires modelId in COST_MAPPING
    requires before == AfterStream(t1, callId, modelId, COST_MAPPING, seen)
    requires ChunkText(chunk).None? ==> after == before
    requires ChunkText(chunk).Some? ==>
      var d := count(ChunkText(chunk).value);
      after == CompletionUpdated(before, callId, modelId, d, CompletionCost(d, modelId))
    ensures after == AfterStream(t1, callId, modelId, COST_MAPPING, seen + OptionTokens(count, ChunkText(chunk)))
  {
    if ChunkText(chunk).Some? {
      var d := count(ChunkText(chunk).value);
      assert OptionTokens(count, ChunkText(chunk)) == d;
      assert after == CompletionUpdated(before, callId, modelId, d, TokenCost(d, modelId, "completion", COST_MAPPING).ToOption());
      CompletionsAdd(t1, callId, modelId, COST_MAPPING, seen, d);
    }
  }

  /** One pass of the stream loop: processing chunk `i` moves the table from
      the account of the first `i` chunks to that of the first `i + 1`. */
  lemma StreamStep(t1: Table, before: Table, after: Table, callId: string, modelId: string,
                   count: string -> nat, stream: seq<Chunk>, i: nat)
    requires modelId in COST_MAPPING && i < |stream|
    requires before == AfterStream(t1, callId, modelId, COST_MAPPING, ChunksTokens(count, stream[..i]))
    requires ChunkText(stream[i]).None? ==> after == before
    requires ChunkText(stream[i]).Some? ==>
      var d := count(ChunkText(stream[i]).value);
      after == CompletionUpdated(before, callId, modelId, d, CompletionCost(d, modelId))
    ensures after == AfterStream(t1, callId, modelId, COST_MAPPING, ChunksTokens(count, stream[..i + 1]))
  {
    var seen, chunk := ChunksTokens(count, stream[..i]), stream[i];
    assert ChunksTokens(count, stream[..i + 1]) == seen + OptionTokens(count, ChunkText(chunk)) by {
      ChunksTokensSnoc(count, stream, i);
    }
    AfterChunk(t1, before, after, callId, modelId, count, chunk, seen);
  }

  /** One pass of a loop over streamed texts, priced by `prices` (the async
      stream here and both streams of the tutorial copy): counting text `i`
      moves the table from the account of the first `i` texts to that of
      the first `i + 1`. */
  lemma TextStreamStep(t1: Table, before: Table, after: Table, callId: string, modelId: string,
                       prices: map<string, Price>, count: string -> nat, texts: seq<string>, i: nat)
    requires modelId in prices && i < |texts|
    requires before == AfterStream(t1, callId, modelId, prices, SumCounts(count, texts[..i]))
    requires after == CompletionUpdated(before, callId, modelId, count(texts[i]),
                                        TokenCost(count(texts[i]), modelId, "completion", prices).ToOption())
    ensures after == AfterStream(t1, callId, modelId, prices, SumCounts(count, texts[..i + 1]))
  {
    CompletionsAdd(t1, callId, modelId, prices, SumCounts(count, texts[..i]), count(texts[i]));
    SumCountsSnoc(count, texts, i);
  }

  lemma ChunksTokensSnoc(count: string -> nat, cs: seq<Chunk>, i: nat)
    requires i < |cs|
    ensures ChunksTokens(count, cs[..i + 1]) == ChunksTokens(count, cs[..i]) + OptionTokens(count, ChunkText(cs[i]))
  {
    assert cs[..i + 1][..i] == cs[..i];
  }

  lemma SumCountsSnoc(count: string -> nat, ss: seq<string>, i: nat)
    requires i < |ss|
    ensures SumCounts(count, ss[..i + 1]) == SumCounts(count, ss[..i]) + count(ss[i])
  {
    assert ss[..i + 1][..i] == ss[..i];
  }

  class ChatBedrockWrapper {
    const callId: string
    const modelId: string
    /** The shared `TOKEN_COUNTER`. */
    const counter: TokenCounter
    /** `get_num_tokens` of the wrapped client. */
    const numTokens: string -> nat

    constructor (callId: string, modelId: string, counter: TokenCounter, numTokens: string -> nat)
      ensures this.callId == callId && this.modelId == modelId
      ensures this.counter == counter && this.numTokens == numTokens
    {
      this.callId := callId;
      this.modelId := modelId;
      this.counter := counter;
      this.numTokens := numTokens;
    }

    /** `__get_tokens_count`: accumulates the prompt's token count. */
    method GetTokensCount(prompt: Option<string>, system: Option<string>, messages: Option<seq<Content>>)
      returns (tokens: nat)
      ensures tokens == TokensCount(numTokens, prompt, system, messages)
    {
      tokens := 0;
      if prompt.Some? {
        tokens := tokens + numTokens(prompt.value);
      }
      if system.Some? {
        tokens := tokens + numTokens(system.value);
      }
      if messages.Some? && |messages.value| > 0 {
        var ms := messages.value;
        ghost var base := tokens;
        var i := 0;
        while i < |ms|
          invariant 0 <= i <= |ms|
          invariant tokens == base + MessagesTokens(numTokens, ms[..i])
        {
          var content := ms[i];
          match content {
            case Parts(parts) =>
              ghost var before := tokens;
              var j := 0;
              while j < |parts|
                invariant 0 <= j <= |parts|
                invariant tokens == before + PartsTokens(numTokens, parts[..j])
              {
                var elem := parts[j];
                if elem.input.Some? {
                  tokens := tokens + numTokens(elem.input.value);
                }
                if elem.output.Some? {
                  tokens := tokens + numTokens(elem.output.value);
                }
                assert parts[..j + 1][..j] == parts[..j];
                j := j + 1;
              }
              assert parts[..j] == parts;
            case Text(s) =>
              tokens := tokens + numTokens(s);
            case Other(rendered) =>
              tokens := tokens + numTokens(rendered);
          }
          assert ms[..i + 1][..i] == ms[..i];
          i := i + 1;
        }
        assert ms[..i] == ms;
      }
    }

    /** `_update_token_counter_prompt`: counts the prompt, then records it
        with its price; an unpriced model raises after the token counters
        and the request count were bumped. */
    method UpdateTokenCounterPrompt(prompt: Option<string>, system: Option<string>, messages: Option<seq<Content>>)
      returns (outcome: Outcome<CostError>)
      modifies counter
      ensures var tokens := TokensCount(numTokens, prompt, system, messages);
        counter.table == PromptUpdated(old(counter.table), callId, modelId, tokens, PromptCost(tokens, modelId))
      ensures outcome == if modelId in COST_MAPPING then Pass else Fail(UnknownModel(modelId))
    {
      var tokens := GetTokensCount(prompt, system, messages);
      var cost := GetTokenCost(tokens, modelId, "prompt");
      counter.RecordPrompt(callId, modelId, tokens, cost.ToOption());
      outcome := if cost.Success? then Pass else Fail(cost.error);
    }

    /** `_update_token_counter_completion`. */
    method UpdateTokenCounterCompletion(text: string) returns (outcome: Outcome<CostError>)
      modifies counter
      ensures counter.table == CompletionUpdated(old(counter.table), callId, modelId,
                                                 numTokens(text), CompletionCost(numTokens(text), modelId))
      ensures outcome == if modelId in COST_MAPPING then Pass else Fail(UnknownModel(modelId))
    {
      var tokens := numTokens(text);
      var cost := GetTokenCost(tokens, modelId, "completion");
      counter.RecordCompletion(callId, modelId, tokens, cost.ToOption());
      outcome := if cost.Success? then Pass else Fail(cost.error);
    }

    /** `__process_chunk_content`: a generation chunk counts its `text`, a
        message chunk its `content`, any other chunk nothing. */
    method ProcessChunkContent(chunk: Chunk) returns (outcome: Outcome<CostError>)
      modifies counter
      ensures ChunkText(chunk).None? ==> counter.table == old(counter.table) && outcome == Pass
      ensures ChunkText(chunk).Some? ==>
        var tokens := numTokens(ChunkText(chunk).value);
        counter.table == CompletionUpdated(old(counter.table), callId, modelId, tokens, CompletionCost(tokens, modelId))
        && outcome == if modelId in COST_MAPPING then Pass else Fail(UnknownModel(modelId))
    {
      outcome := Pass;
      match chunk {
        case GenerationChunk(text) =>
          outcome := UpdateTokenCounterCompletion(text);
        case AIMessageChunk(content) =>
          outcome := UpdateTokenCounterCompletion(content);
        case OtherChunk =>
      }
    }

    /** `invoke`: records the prompt from the input's message contents, calls
        the client, then records the reply's text (`''` when the reply's
        content is not a string). A client error propagates with the prompt
        usage left in place, and a pricing error stops before the client is called. */
    method Invoke(contents: seq<Content>, reply: Result<AIMessage, string>)
      returns (r: Result<AIMessage, InvokeError>)
      modifies counter
      ensures var tokens := TokensCount(numTokens, None, None, Some(contents));
        var t1 := PromptUpdated(old(counter.table), callId, modelId, tokens, PromptCost(tokens, modelId));
        && (modelId !in COST_MAPPING ==> r == Failure(PricingError(UnknownModel(modelId))) && counter.table == t1)
        && (modelId in COST_MAPPING && reply.Failure? ==>
              r == Failure(ClientError(reply.error)) && counter.table == t1)
        && (modelId in COST_MAPPING && reply.Success? ==>
              var n := numTokens(ReplyText(reply.value));
              r == Success(reply.value)
              && counter.table == CompletionUpdated(t1, callId, modelId, n, CompletionCost(n, modelId)))
    {
      var o := UpdateTokenCounterPrompt(None, None, Some(contents));
      if o.Fail? {
        return Failure(PricingError(o.error));
      }
      if reply.Failure? {
        return Failure(ClientError(reply.error));
      }
      var ret := reply.value;
      var content := ReplyText(ret);
      o := UpdateTokenCounterCompletion(content);
      r := Success(ret);
    }

    /** `_prepare_input_and_invoke`: records the prompt, calls the client,
        records the returned text and passes the client's result through. */
    method PrepareInputAndInvoke<R>(prompt: Option<string>, system: Option<string>, messages: Option<seq<Content>>,
                                    reply: Result<(string, R), string>)
      returns (r: Result<(string, R), InvokeError>)
      modifies counter
      ensures var tokens := TokensCount(numTokens, prompt, system, messages);
        var t1 := PromptUpdated(old(counter.table), callId, modelId, tokens, PromptCost(tokens, modelId));
        && (modelId !in COST_MAPPING ==> r == Failure(PricingError(UnknownModel(modelId))) && counter.table == t1)
        && (modelId in COST_MAPPING && reply.Failure? ==>
              r == Failure(ClientError(reply.error)) && counter.table == t1)
        && (modelId in COST_MAPPING && reply.Success? ==>
              var n := numTokens(reply.value.0);
              r == Success(reply.value)
              && counter.table == CompletionUpdated(t1, callId, modelId, n, CompletionCost(n, modelId)))
    {
      var o := UpdateTokenCounterPrompt(prompt, system, messages);
      if o.Fail? {
        return Failure(PricingError(o.error));
      }
      if reply.Failure? {
        return Failure(ClientError(reply.error));
      }
      var text := reply.value.0;
      o := UpdateTokenCounterCompletion(text);
      r := Success(reply.value);
    }

    /** The generator `inner` of `_prepare_input_and_invoke_stream`, asked
        for `consumed` chunks: each chunk's text is counted as it is yielded,
        so the completion usage is that of the chunks pulled so far, and an
        exception of the client's stream reaches the consumer with those
        chunks already counted. It only runs once the prompt update has priced
        the model and created its record. */
    method StreamInner(stream: ClientStream<Chunk>, consumed: nat) returns (r: Result<seq<Chunk>, InvokeError>)
      requires modelId in COST_MAPPING
      requires Get(Usage(counter.table, callId), modelId).Some?
      modifies counter
      ensures r == StreamOutcome(stream, consumed)
      ensures counter.table == AfterStream(old(counter.table), callId, modelId, COST_MAPPING,
                                           ChunksTokens(numTokens, stream.chunks[..Pulled(stream, consumed)]))
    {
      ghost var t1 := counter.table;
      AfterStreamStart(t1, callId, modelId, COST_MAPPING);
      var chunks := stream.chunks;
      var i := 0;
      while i < |chunks| && i < consumed
        invariant 0 <= i <= |chunks| && i <= consumed
        invariant counter.table == AfterStream(t1, callId, modelId, COST_MAPPING, ChunksTokens(numTokens, chunks[..i]))
      {
        ghost var before := counter.table;
        var o := ProcessChunkContent(chunks[i]);
        StreamStep(t1, before, counter.table, callId, modelId, numTokens, chunks, i);
        i := i + 1;
      }
      if i < consumed && stream.raised.Some? {
        r := Failure(ClientError(stream.raised.value));
      } else {
        r := Success(chunks[..i]);
      }
    }

    /** `_prepare_input_and_invoke_stream`: the prompt is recorded before any
        chunk; a client that raises when asked for the stream leaves only the
        prompt counted; otherwise the stream is counted chunk by chunk as
        `inner` yields it. */
    method PrepareInputAndInvokeStream(prompt: Option<string>, system: Option<string>, messages: Option<seq<Content>>,
                                       stream: Result<ClientStream<Chunk>, string>, consumed: nat)
      returns (r: Result<seq<Chunk>, InvokeError>)
      modifies counter
      ensures var tokens := TokensCount(numTokens, prompt, system, messages);
        var t1 := PromptUpdated(old(counter.table), callId, modelId, tokens, PromptCost(tokens, modelId));
        && (modelId !in COST_MAPPING ==> r == Failure(PricingError(UnknownModel(modelId))) && counter.table == t1)
        && (modelId in COST_MAPPING && stream.Failure? ==>
              r == Failure(ClientError(stream.error)) && counter.table == t1)
        && (modelId in COST_MAPPING && stream.Success? ==>
              var s := stream.value;
              var n := ChunksTokens(numTokens, s.chunks[..Pulled(s, consumed)]);
              r == StreamOutcome(s, consumed)
              && counter.table == AfterStream(t1, callId, modelId, COST_MAPPING, n))
    {
      ghost var t0 := counter.table;
      var o := UpdateTokenCounterPrompt(prompt, system, messages);
      if o.Fail? {
        return Failure(PricingError(o.error));
      }
      if stream.Failure? {
        return Failure(ClientError(stream.error));
      }
      ghost var tokens := TokensCount(numTokens, prompt, system, messages);
      StoredFrame(t0, callId, modelId, AfterPrompt(Record(t0, callId, modelId), tokens, PromptCost(tokens, modelId)));
      r := StreamInner(stream.value, consumed);
    }

    /** The generator `inner` of `_aprepare_input_and_invoke_stream`: every
        chunk is a text generation chunk whose `text` is counted as it is
        yielded, and an exception of the client's stream reaches the consumer
        with the chunks before it counted. It only runs once the prompt update
        has priced the model and created its record. */
    method AsyncStreamInner(texts: ClientStream<string>, consumed: nat) returns (r: Result<seq<string>, InvokeError>)
      requires modelId in COST_MAPPING
      requires Get(Usage(counter.table, callId), modelId).Some?
      modifies counter
      ensures r == StreamOutcome(texts, consumed)
      ensures counter.table == AfterStream(old(counter.table), callId, modelId, COST_MAPPING,
                                           SumCounts(numTokens, texts.chunks[..Pulled(texts, consumed)]))
    {
      ghost var t1 := counter.table;
      AfterStreamStart(t1, callId, modelId, COST_MAPPING);
      var chunks := texts.chunks;
      var i := 0;
      while i < |chunks| && i < consumed
        invariant 0 <= i <= |chunks| && i <= consumed
        invariant counter.table == AfterStream(t1, callId, modelId, COST_MAPPING, SumCounts(numTokens, chunks[..i]))
      {
        ghost var before := counter.table;
        var o := UpdateTokenCounterCompletion(chunks[i]);
        assert CompletionCost(numTokens(chunks[i]), modelId)
            == TokenCost(numTokens(chunks[i]), modelId, "completion", COST_MAPPING).ToOption();
        TextStreamStep(t1, before, counter.table, callId, modelId, COST_MAPPING, numTokens, chunks, i);
        i := i + 1;
      }
      if i < consumed && texts.raised.Some? {
        r := Failure(ClientError(texts.raised.value));
      } else {
        r := Success(chunks[..i]);
      }
    }

    /** `_aprepare_input_and_invoke_stream`: the prompt (with no system text and
        no messages) is recorded at once; a client that raises when asked for
        the stream leaves only that; otherwise each streamed text is counted
        as it is yielded. */
    method AsyncPrepareInputAndInvokeStream(prompt: string, texts: Result<ClientStream<string>, string>, consumed: nat)
      returns (r: Result<seq<string>, InvokeError>)
      modifies counter
      ensures var tokens := numTokens(prompt);
        var t1 := PromptUpdated(old(counter.table), callId, modelId, tokens, PromptCost(tokens, modelId));
        && (modelId !in COST_MAPPING ==> r == Failure(PricingError(UnknownModel(modelId))) && counter.table == t1)
        && (modelId in COST_MAPPING && texts.Failure? ==>
              r == Failure(ClientError(texts.error)) && counter.table == t1)
        && (modelId in COST_MAPPING && texts.Success? ==>
              var s := texts.value;
              r == StreamOutcome(s, consumed)
              && counter.table == AfterStream(t1, callId, modelId, COST_MAPPING,
                                              SumCounts(numTokens, s.chunks[..Pulled(s, consumed)])))
    {
      ghost var t0 := counter.table;
      var o := UpdateTokenCounterPrompt(Some(prompt), None, None);
      if o.Fail? {
        return Failure(PricingError(o.error));
      }
      if texts.Failure? {
        return Failure(ClientError(texts.error));
      }
      ghost var tokens := TokensCount(numTokens, Some(prompt), None, None);
      StoredFrame(t0, callId, modelId, AfterPrompt(Record(t0, callId, modelId), tokens, PromptCost(tokens, modelId)));
      r := AsyncStreamInner(texts.value, consumed);
    }
  }
}
