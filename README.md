# Token accounting and database tools of GDSC-7, in Dafny

The GDSC-7 challenge server exposes an agent crew over HTTP. Two things about it are modelled here.

1. **Usage accounting.** Every Bedrock chat call goes through `ChatBedrockWrapper`. The wrapper records token usage and cost into a process-wide table, `TOKEN_COUNTER`, which maps call id → model id → metrics. The `/run` handler mints a call id, opens that call's entry in the table, reports the usage in its answer, and deletes the entry afterwards.
2. **Database tools.** Three tools query the PIRLS database and format the results as text. The crews under `src/submission/crews` import them from `src.submission.tools.database`. That module is not part of this model; its copy `tutorials/src/submission/tools/database.py` is what is modelled here. The tutorial crew defines its own `query_database` instead, and that one is not modelled.

The modules follow the source files:

- `usage.dfy` (`UsageTable`): the table and its read-outs.
  - The table's shape is `Table`. One call's inner dict is kept with its insertion order, as a Python dict keeps it.
  - The read-outs are `get_total_number_of_tokens`, `get_total_cost` and `get_token_details`.
  - The two in-place update bodies belong to the class `TokenCounter`, which represents the shared module-level dict.
  - Both wrapper copies share these pieces.
- `pricing.dfy` (`Pricing`):
  - the price tables;
  - `get_token_cost`, including its mode assertion and its lookup failure;
  - `compute_llm_call_cost`;
  - the accounting of a partly consumed completion stream.
- `bedrock_wrapper.dfy` (`BedrockWrapper`): the wrapper of `src/static/ChatBedrockWrapper.py` as a class over the shared table. Its token counting is a loop over messages and parts. Its stream generators are loops over the chunks the caller consumed.
- `tutorial_wrapper.dfy` (`TutorialWrapper`): the older copy in `tutorials/src/static/ChatBedrockWrapper.py`. It has a three-model price table and counts string contents only. It is related to the newer copy by lemmas.
- `app.dfy` (`App`): the `/run` handler.
  - the request body and its default timeout;
  - the call-id format, with a parse-back round trip;
  - the worker's usage updates, replayed against the call's entry;
  - the three answer shapes;
  - the insert/delete lifecycle of the entry.
- `database.dfy` (`Database`): the three tools.
  - The pure parts are entity-id derivation, quote stripping from the user's code or type, row formatting and truncation.
  - The two list-building loops are methods.
  - Executing SQL is a function parameter.

Some Python behaviours are modelled explicitly:

- In `d['total_cost'] += get_token_cost(...)` the price is computed after the token counters were already bumped. An unknown model therefore leaves the tokens and requests counted and the cost unchanged. The update then fails (`Fail(UnknownModel)`).
- A generator only does work for the chunks its consumer pulls. The stream methods take the number of chunks consumed.
- The client's stream is its chunks followed by either the end or an exception (`ClientStream`). An exception raised while `inner` iterates reaches the consumer after the chunks before it were counted.
- `invoke` counts a reply whose content is not a string as `get_num_tokens('')` (src/static/ChatBedrockWrapper.py:65). The model keeps that call: the completion is `numTokens("")`, which need not be 0.

## Model

| member | source | states |
|---|---|---|
| UsageTable.Put | src/static/ChatBedrockWrapper.py:147-148 | after `d[model_id] = m` the key reads back `m` and every other key reads as before |
| UsageTable.PutWellFormed | src/static/ChatBedrockWrapper.py:147-148 | assigning a key keeps the insertion order listing each key exactly once, and keeps every record consistent |
| UsageTable.PutPut | src/static/ChatBedrockWrapper.py:149-152 | a second assignment to one key overwrites the first, keeping the key's place in the order |
| UsageTable.PutSame | src/static/ChatBedrockWrapper.py:149-152 | assigning a key the record it already holds leaves the dict, order included, unchanged |
| UsageTable.SumsUnlisted | src/static/ChatBedrockWrapper.py:19-24 | records of keys outside the dict do not enter the token and cost sums |
| UsageTable.SumsReplaced | src/static/ChatBedrockWrapper.py:19-24 | replacing one listed record changes both sums by exactly the difference of old and new record |
| UsageTable.SumsAfterPut | src/static/ChatBedrockWrapper.py:19-24 | after an assignment the call's totals are the old totals minus the old record (zero if absent) plus the new one |
| UsageTable.DetailsFaithful | src/static/ChatBedrockWrapper.py:27-34 | the details comprehension lists the keys in dict order, each with that record's prompt and completion counts |
| UsageTable.DetailsSumIsTotal | src/static/ChatBedrockWrapper.py:19-20 | when every record's total is its prompt plus completion count, the details add up to the total tokens |
| UsageTable.StoredFrame | src/static/ChatBedrockWrapper.py:148-152 | storing a record under a call keeps the call present, reads back the record, leaves the call's other models and every other call unchanged |
| UsageTable.StoredStored | src/static/ChatBedrockWrapper.py:149-152 | the successive field assignments to one record amount to the last store |
| UsageTable.StoredSame | src/static/ChatBedrockWrapper.py:147-148 | storing the record a call already holds changes nothing, so the zero record is stored only on first use |
| UsageTable.GetTotalNumberOfTokens | src/static/ChatBedrockWrapper.py:19-20 | a call with no records, absent from the table or opened and unused, has used 0 tokens |
| UsageTable.GetTotalCost | src/static/ChatBedrockWrapper.py:23-24 | a call with no records has cost 0 |
| UsageTable.GetTokenDetails | src/static/ChatBedrockWrapper.py:27-34 | one entry per model of the call, its keys exactly the call's models in first-insertion order |
| UsageTable.TokenDetailsFaithful | src/static/ChatBedrockWrapper.py:27-34 | each entry of `get_token_details` carries its model's record's prompt and completion counts |
| UsageTable.ReadOutsAgree | src/static/ChatBedrockWrapper.py:19-34 | on a valid table a model has a record iff it appears in the details, and the total tokens equal the details' prompt plus completion counts |
| UsageTable.AfterPrompt | src/static/ChatBedrockWrapper.py:149-156 | the prompt update adds the tokens to the total and prompt counts, one request, the price when computed, and leaves the completion count alone |
| UsageTable.AfterCompletion | src/static/ChatBedrockWrapper.py:162-168 | the completion update adds the tokens to the total and completion counts and the price when computed, leaving the prompt count and requests alone |
| UsageTable.UpdatesKeepConsistent | src/static/ChatBedrockWrapper.py:149-163 | both updates keep a record's total tokens equal to its prompt plus completion tokens |
| UsageTable.CompletionsCompose | src/static/ChatBedrockWrapper.py:158-168 | two priced completion updates of a record equal one update by the summed tokens and summed cost |
| UsageTable.PromptUpdated | src/static/ChatBedrockWrapper.py:145-156 | after a prompt update the call has a record for the model and every other call is unchanged |
| UsageTable.CompletionUpdated | src/static/ChatBedrockWrapper.py:158-168 | after a completion update the call has a record for the model and every other call is unchanged |
| UsageTable.PromptUpdateSpec | src/static/ChatBedrockWrapper.py:145-156 | a prompt update zero-initialises a missing record, adds the tokens to total and prompt counts, one request, the price when it could be computed (none when pricing raised), leaves other calls alone, and grows the call's totals by exactly that |
| UsageTable.CompletionUpdateSpec | src/static/ChatBedrockWrapper.py:158-168 | a completion update zero-initialises a missing record, adds the tokens to total and completion counts, no request, the price if computed, leaves other calls alone, and grows the call's totals by exactly that |
| UsageTable.UpdatesKeepValid | src/static/ChatBedrockWrapper.py:145-168 | both updates preserve the table invariant: insertion order matches keys, every record consistent |
| UsageTable.TokenCounter.constructor | src/static/ChatBedrockWrapper.py:16 | the table starts empty |
| UsageTable.TokenCounter.Open | src/static/app.py:34 | `TOKEN_COUNTER[call_id] = {}` replaces that one entry by an empty dict |
| UsageTable.TokenCounter.Close | src/static/app.py:70 | `del TOKEN_COUNTER[call_id]` removes that one entry and nothing else |
| UsageTable.TokenCounter.RecordPrompt | src/static/ChatBedrockWrapper.py:147-156 | the table becomes the prompt-updated table |
| UsageTable.TokenCounter.RecordCompletion | src/static/ChatBedrockWrapper.py:160-168 | the table becomes the completion-updated table |
| Pricing.TokenCost | src/static/ChatBedrockWrapper.py:171-186 | an unsupported mode fails the assertion, an unlisted model fails the lookup, success exactly otherwise; prompt/input price `tokens / 1000 * input`, completion/output `tokens / 1000 * output` |
| Pricing.GetTokenCost | src/static/ChatBedrockWrapper.py:171-186 | the seven-model table prices a call exactly for a supported mode and a listed model |
| Pricing.TokenCostLinear | src/static/ChatBedrockWrapper.py:182-186 | cost is additive in tokens, `prompt` prices like `input` and `completion` like `output` |
| Pricing.CostTracksAcrossUpdates | src/static/ChatBedrockWrapper.py:145-168 | from the zero record, priced updates keep the recorded cost equal to what the prompt and completion counts are worth |
| Pricing.ComputeLlmCallCost | src/static/ChatBedrockWrapper.py:189-214 | a missing record raises, a model outside the three-model table raises, success exactly otherwise |
| Pricing.PriceTablesAgree | src/static/ChatBedrockWrapper.py:173-197 | the three-model table is the seven-model table restricted to its three models |
| Pricing.ComputeLlmCallCostAgrees | src/static/ChatBedrockWrapper.py:189-214 | for a record whose cost tracks its counts, `compute_llm_call_cost` returns the recorded total cost |
| Pricing.HaikuExample | src/static/ChatBedrockWrapper.py:145-168 | a 10-token prompt and 5-token completion on haiku record 15 tokens, one request and cost 0.00000875 |
| Pricing.CompletionsAdd | src/static/ChatBedrockWrapper.py:158-168 | counting `a` streamed tokens then `b` more equals counting `a + b` at once |
| Pricing.AfterStreamStart | src/static/ChatBedrockWrapper.py:100-103 | a stream with nothing consumed leaves an existing record as it was |
| BedrockWrapper.PartsTokensAsTexts | src/static/ChatBedrockWrapper.py:132-137 | the parts' count is the tokenizer summed over each part's `input` then `output`, when present |
| BedrockWrapper.MessagesTokensAsTexts | src/static/ChatBedrockWrapper.py:129-142 | the messages' count is the tokenizer summed over the texts of every message in order |
| BedrockWrapper.TokensCount | src/static/ChatBedrockWrapper.py:123-143 | the prompt count is the tokenizer summed over prompt, system text and every message text, absent parts contributing nothing |
| BedrockWrapper.AfterChunk | src/static/ChatBedrockWrapper.py:83-87 | processing one chunk extends the stream's account by that chunk's text's tokens, or by none for a chunk of another kind |
| BedrockWrapper.Pulled | src/static/ChatBedrockWrapper.py:100-103 | a consumer asking for `n` chunks receives `n` or, when the stream is shorter, all of it |
| BedrockWrapper.StreamOutcome | src/static/ChatBedrockWrapper.py:100-103 | the consumer gets the exception of the client's stream exactly when it asks past the last chunk of a stream that raises, and otherwise the chunks it pulled |
| BedrockWrapper.ChatBedrockWrapper.constructor | src/static/ChatBedrockWrapper.py:47-50 | the wrapper holds its call id, model id, the shared table and the tokenizer |
| BedrockWrapper.ChatBedrockWrapper.GetTokensCount | src/static/ChatBedrockWrapper.py:123-143 | the nested accumulator loops compute the prompt's token count |
| BedrockWrapper.ChatBedrockWrapper.UpdateTokenCounterPrompt | src/static/ChatBedrockWrapper.py:145-156 | the table is the prompt update by the counted tokens; raises exactly for an unpriced model, after counting |
| BedrockWrapper.ChatBedrockWrapper.UpdateTokenCounterCompletion | src/static/ChatBedrockWrapper.py:158-168 | the table is the completion update by the text's tokens; raises exactly for an unpriced model, after counting |
| BedrockWrapper.ChatBedrockWrapper.ProcessChunkContent | src/static/ChatBedrockWrapper.py:83-87 | generation chunks count their text, message chunks their content, other chunks nothing |
| BedrockWrapper.ChatBedrockWrapper.Invoke | src/static/ChatBedrockWrapper.py:53-67 | the contents are recorded as prompt before the call; a failing client leaves only that; a reply is returned and its string content (else `''`) recorded as completion; a pricing failure stops before the client is called |
| BedrockWrapper.ChatBedrockWrapper.PrepareInputAndInvoke | src/static/ChatBedrockWrapper.py:69-81 | prompt recorded, then the client's text recorded as completion and its result returned; failures propagate with the usage recorded so far |
| BedrockWrapper.ChatBedrockWrapper.StreamInner | src/static/ChatBedrockWrapper.py:100-103 | the generator yields the pulled prefix of the stream, or the stream's exception once it is reached, and has counted exactly the pulled chunks' tokens as completion |
| BedrockWrapper.ChatBedrockWrapper.PrepareInputAndInvokeStream | src/static/ChatBedrockWrapper.py:89-104 | an unpriced model fails at the prompt update with no stream; a client that raises when asked for the stream leaves only the prompt recorded; otherwise the prompt is recorded and then each pulled chunk, and a stream exception reaches the consumer |
| BedrockWrapper.ChatBedrockWrapper.AsyncStreamInner | src/static/ChatBedrockWrapper.py:116-119 | the async generator yields the pulled prefix, or the stream's exception once reached, and has counted exactly the pulled texts' tokens |
| BedrockWrapper.ChatBedrockWrapper.AsyncPrepareInputAndInvokeStream | src/static/ChatBedrockWrapper.py:106-121 | the prompt alone is recorded, then each pulled chunk; an unpriced model fails first; a client that raises at once leaves only the prompt; a stream exception reaches the consumer |
| TutorialWrapper.GetTokenCost | tutorials/src/static/ChatBedrockWrapper.py:156-167 | this copy prices a call exactly for a supported mode and one of its three models |
| TutorialWrapper.CostCopiesAgree | tutorials/src/static/ChatBedrockWrapper.py:158-162 | both copies of `get_token_cost` agree on the three models; the other four models fail here but are priced by the newer copy |
| TutorialWrapper.TokensCountIsSumOverTexts | tutorials/src/static/ChatBedrockWrapper.py:119-128 | the prompt count is the tokenizer summed over prompt, system text and each message content |
| TutorialWrapper.MessagesCountLikeMain | tutorials/src/static/ChatBedrockWrapper.py:125-127 | on string contents this copy counts messages as the newer copy does |
| TutorialWrapper.TokensCountLikeMain | tutorials/src/static/ChatBedrockWrapper.py:119-128 | on string contents both copies of `__get_tokens_count` give the same count |
| TutorialWrapper.ChatBedrockWrapper.constructor | tutorials/src/static/ChatBedrockWrapper.py:48-51 | the wrapper holds its call id, model id, table and tokenizer |
| TutorialWrapper.ChatBedrockWrapper.GetTokensCount | tutorials/src/static/ChatBedrockWrapper.py:119-128 | the accumulator loop computes the prompt's token count |
| TutorialWrapper.ChatBedrockWrapper.UpdateTokenCounterPrompt | tutorials/src/static/ChatBedrockWrapper.py:130-141 | prompt update by the counted tokens; raises exactly for a model outside the three-model table |
| TutorialWrapper.ChatBedrockWrapper.UpdateTokenCounterCompletion | tutorials/src/static/ChatBedrockWrapper.py:143-153 | completion update by the text's tokens; raises exactly for a model outside the three-model table |
| TutorialWrapper.ChatBedrockWrapper.Invoke | tutorials/src/static/ChatBedrockWrapper.py:53-67 | contents recorded as prompt before the client call, the reply's string content (else `''`) as completion |
| TutorialWrapper.ChatBedrockWrapper.PrepareInputAndInvoke | tutorials/src/static/ChatBedrockWrapper.py:69-81 | prompt recorded, then the client's text as completion, its result returned |
| TutorialWrapper.ChatBedrockWrapper.StreamInner | tutorials/src/static/ChatBedrockWrapper.py:95-98 | the generator yields the pulled prefix, or the stream's exception once reached, and has counted exactly the pulled texts' tokens |
| TutorialWrapper.ChatBedrockWrapper.PrepareInputAndInvokeStream | tutorials/src/static/ChatBedrockWrapper.py:83-100 | an unpriced model fails at the prompt update with no stream; a client that raises at once leaves only the prompt; otherwise prompt then each pulled chunk, a stream exception reaching the consumer |
| TutorialWrapper.ChatBedrockWrapper.AsyncPrepareInputAndInvokeStream | tutorials/src/static/ChatBedrockWrapper.py:102-117 | the prompt alone is recorded, then each pulled chunk; a client that raises at once leaves only the prompt; a stream exception reaches the consumer |
| App.MakePayload | src/static/app.py:18-20 | the timeout is 300 seconds when the request omits it, the given value otherwise |
| App.DigitsValue | src/static/app.py:33 | `str(n)` is a non-empty digit string denoting `n` |
| App.ZeroPadValue | src/static/app.py:33 | a zero-padded strftime field below `10^width` has exactly `width` digits and denotes its number |
| App.FieldsRoundTrip | src/static/app.py:33 | fields that fit their widths print as exactly that many digits and read back as the same values |
| App.ParseFields | src/static/app.py:33 | a successful parse yields one value per field and consumes exactly the fields' total width |
| App.FormatTimestamp | src/static/app.py:33 | `%Y%m%d%H%M%S%f` of a clock reading in range is 20 digits whose fields (widths 4, 2, 2, 2, 2, 2, 6) read back as the reading |
| App.CallId | src/static/app.py:33 | the call id is the 20 timestamp digits, `_`, then the digits of the suffix, which read back as the suffix |
| App.CallIdRoundTrip | src/static/app.py:33 | parsing a call id gives back the clock reading and the suffix |
| App.CallIdInjective | src/static/app.py:33 | two call ids are equal iff both clock reading and suffix are |
| App.ApplySpec | src/static/ChatBedrockWrapper.py:145-168 | one usage update of the call keeps other calls and table validity, adds its tokens and price to the call's totals, and appends a new model to the order |
| App.PerformEvents | src/static/app.py:36-45 | the worker's usage updates land in the table one after the other, in order |
| App.ReplaySpec | src/static/app.py:34-47 | from the fresh entry, the worker's updates leave other calls as they were and give the call exactly the events' tokens, cost and models in first-use order |
| App.ReplayFrame | src/static/app.py:34-47 | the worker's updates keep the call's entry present and touch nothing else |
| App.ReplayLocal | src/static/app.py:34-47 | what the worker's updates leave in the call's entry depends on that entry alone |
| App.Respond | src/static/app.py:49-68 | a timeout answers 200 with no result or time and `timed_out`; a completed run 200 with result and time; a failed one 500 with its text; every 200 carries the call's tokens, cost and details from the table |
| App.RespondSpec | src/static/app.py:49-68 | from a freshly opened entry, whatever the rest of the table holds: a completed run reports result and time; a timeout reports neither but `timed_out`; any other failure is HTTP 500 with the exception text; 200 answers carry the events' tokens, cost and one detail per model in first-use order, adding up to the tokens |
| App.RunTask | src/static/app.py:31-70 | the entry is inserted, updated by the worker, read for the answer and deleted on every path; the table afterwards is the old one without that key |
| Database.Lower | tutorials/src/submission/tools/database.py:58 | lowercasing keeps the length, leaves no capital, turns each capital into the small letter of the same place and keeps every other character |
| Database.LowerIdempotent | tutorials/src/submission/tools/database.py:58 | lowercasing twice is lowering once |
| Database.EntityId | tutorials/src/submission/tools/database.py:58 | the entity id always ends in `_id` |
| Database.EntityIdSpec | tutorials/src/submission/tools/database.py:58 | `curricula` (any case) keys on `curriculum_id`, any other name on its lowercased form minus the last character plus `_id`; independent of the name's case |
| Database.EntityIdOfTables | tutorials/src/submission/tools/database.py:98 | Students, Curricula, Homes, Teachers, Schools key on student_id, curriculum_id, home_id, teacher_id, school_id |
| Database.RemoveAll | tutorials/src/submission/tools/database.py:64 | `replace(c, "")` leaves no `c`, adds no character and never lengthens the text |
| Database.Sanitise | tutorials/src/submission/tools/database.py:64 | the two `replace` calls leave no quote and never lengthen the text |
| Database.SanitiseIsDropQuotes | tutorials/src/submission/tools/database.py:64 | the two `replace` calls remove exactly the quote characters, keeping the rest in order |
| Database.SanitiseSpec | tutorials/src/submission/tools/database.py:104 | the sanitised text holds no quote, quote-free text is unchanged, sanitising is idempotent |
| Database.QueriesKeepLiteralClosed | tutorials/src/submission/tools/database.py:59-65 | the user's code or type adds no single quote to either query, so it stays inside its literal |
| Database.FormatRowOneLine | tutorials/src/submission/tools/database.py:33 | a row of newline-free cells is formatted on one line |
| Database.FormatRows | tutorials/src/submission/tools/database.py:33 | no rows give the empty text; with newline-free cells the result has one line per row, one newline fewer than rows |
| Database.Truncate | tutorials/src/submission/tools/database.py:32-35 | the result is at most 3000 characters plus the notice, and begins with the first 3000 characters (or all) of the text |
| Database.TruncateSpec | tutorials/src/submission/tools/database.py:32-35 | at most 3000 characters are kept whole; longer results keep their first 3000 plus the notice; truncation is idempotent |
| Database.QueryDatabase | tutorials/src/submission/tools/database.py:8-37 | a successful answer is at most its `Query: ...\nResult: ` header plus 3000 characters plus the notice |
| Database.QueryDatabaseSpec | tutorials/src/submission/tools/database.py:26-37 | a failing query yields the exception notice instead of raising, told apart by its first letter; every successful answer begins with the `Query: ...\nResult: ` header; a result that fits follows it whole and, with newline-free cells, adds one line per row; a longer one is cut to exactly 3000 characters plus the notice |
| Database.AnswerLinesAreFormatRows | tutorials/src/submission/tools/database.py:73-77 | the answers list is the rows formatted as in `query_database`, with a trailing newline |
| Database.GetPossibleAnswersToQuestion | tutorials/src/submission/tools/database.py:40-77 | the answers query is run; an exception yields its notice; otherwise each row's `, `-joined cells plus a newline, in row order |
| Database.QuestionLinesAppend | tutorials/src/submission/tools/database.py:113-116 | listing two batches of rows is listing each in turn |
| Database.QuestionLinesCount | tutorials/src/submission/tools/database.py:113-116 | with newline-free questions and codes each row is exactly one line |
| Database.GetQuestionsOfGivenType | tutorials/src/submission/tools/database.py:80-116 | the questions query is run; an exception yields its notice; otherwise `(Code: c) q` plus newline for each row, in order |

## Left out

- LangChain and Bedrock calls (`super().invoke`, `_prepare_input_and_invoke*`, `_convert_input`): foreign library code. Their replies, metadata and failures are parameters. A stream is its chunks followed by the end or an exception, and the call that opens it may raise at once.
- BedrockWrapper.ChatBedrockWrapper.Invoke: assumes `super().invoke` (src/static/ChatBedrockWrapper.py:64) does not call back into the wrapper. The library is not part of this model. If its `invoke` reaches the overridden `_prepare_input_and_invoke`, one call records the prompt and the completion twice and counts two requests.
- TutorialWrapper.ChatBedrockWrapper.Invoke: the same assumption about `super().invoke` (tutorials/src/static/ChatBedrockWrapper.py:64).
- BedrockWrapper.ChatBedrockWrapper.GetTokensCount: an element of a list content is modelled as a dict only. For a string element, `'input' in elem` is a substring test (src/static/ChatBedrockWrapper.py:134-137). A string containing `input` or `output` raises `TypeError` at the subscript, and one containing neither counts 0 tokens; neither case is modelled.
- BedrockWrapper.PartsTokensAsTexts: the same restriction to dict elements.
- `get_num_tokens`: the wrapped client's tokenizer. It is an uninterpreted function parameter `numTokens`.
- `str()` of arbitrary values: message parts, non-string message contents, database cells and exception texts are given as text already rendered.
- Message-chunk content that is a list: it is modelled as a string.
- The tutorial copy assumes every message content is a string. A non-string content there is a tokenizer-call error outside the model.
- `print` of the unrecognised-content warning, and every `logging` call: output only.
- Floating point: costs, `tokens / 1000` and elapsed times are exact reals, so no rounding is modelled.
- Reads creating entries: `get_total_*`, `get_token_details` and `compute_llm_call_cost` read a `defaultdict`, which inserts an empty entry for an absent call id. Here they are pure reads. Inside `run_task` the entry is always present, so the answer does not differ.
- `asyncio`, the executor, `async_timeout` and the event loop clock: the concurrency is left out. A run is given as its usage updates before the answer, its elapsed time and its ending. The cancellation race (a timed-out worker that keeps writing after `del TOKEN_COUNTER[call_id]` and recreates the entry through the `defaultdict`) is left out.
- App.RespondSpec: a run counts as timed out when its elapsed time reaches the timeout. A worker that itself raises `asyncio.TimeoutError` before then is modelled as a failure, whereas the source would report it as a timeout.
- FastAPI/uvicorn plumbing, `JSONResponse` serialisation and pydantic validation errors (HTTP 422) on bad bodies: framework code.
- `create_submission` and the crews: creating the submission is part of the worker's run. A failure there is a `Failed` ending.
- App.CallId: its shape is stated for years from 1000 to 9999. That is the range where `%Y` is four digits; `datetime.now()` lies in it.
- `random.randint`'s distribution: the suffix is any number up to 1 000 000.
- BedrockWrapper.ChatBedrockWrapper.StreamInner: requires a priced model and an existing record. The prompt update that precedes every stream establishes both, so a mid-stream pricing failure does not arise.
- TutorialWrapper.ChatBedrockWrapper.StreamInner: the same requirements, for the same reason.
- SQL execution: SQLAlchemy's `ENGINE`, `connection.execute` and the query's meaning are a parameter `execute`.
  - A failure of `ENGINE.connect()` itself is not modelled; the source does not catch it.
  - In the source the result is iterated after the connection block ends. The model assumes the rows are still readable at that point.
- `str.lower`: modelled on ASCII letters only.
- Lengths and slices count `char`s, which are Unicode scalar values. Python counts code points, so the two differ only on text holding lone surrogates, which a Dafny `string` cannot contain.
- The `Literal` argument types of the tools: the tools accept any table names.
- `tutorials/src/draft_main.py`, the crews, `eval_python_code`, the telemetry patching in `src/static/util.py` and the `Submission` interface are not part of this model.
