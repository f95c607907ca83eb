/** The `/run` handler of src/static/app.py: mint a call id, open its entry in
    the usage table, let the worker record its usage there, answer from the
    table, and delete the entry on every path.

    The clock, the random suffix, the worker's accounting and its outcome are
    parameters: `now` is what `datetime.now()` returned, `suffix` what
    `random.randint(0, 1_000_000)` returned, and a `Run` says which usage
    updates the worker performed before the handler answered, how long it
    ran and how it ended. */
module App {
  import opened Wrappers
  import opened UsageTable

  // ---------------------------------------------------------------------
  // The request

  /** The request body: a prompt and a timeout in seconds. */
  datatype Payload = Payload(prompt: string, timeout: int)

  /** `timeout: int = 5*60`. */
  const DEFAULT_TIMEOUT: int := 5 * 60

  /** The body as pydantic builds it from a request that may omit the timeout. */
  function MakePayload(prompt: string, timeout: Option<int>): (p: Payload)
    ensures p.prompt == prompt
    ensures timeout.None? ==> p.timeout == 300
    ensures timeout.Some? ==> p.timeout == timeout.value
  {
    Payload(prompt, timeout.GetOr(DEFAULT_TIMEOUT))
  }

  // ---------------------------------------------------------------------
  // Decimal text

  predicate IsDigit(c: char) {
    '0' <= c <= '9'
  }

  predicate AllDigits(s: string) {
    forall i :: 0 <= i < |s| ==> IsDigit(s[i])
  }

  function DigitChar(d: nat): char
    requires d < 10
  {
    (d + '0' as int) as char
  }

  /** `str(n)`: the decimal digits of `n`, without leading zeros. */
  function Digits(n: nat): string
    decreases n
  {
    if n < 10 then [DigitChar(n)] else Digits(n / 10) + [DigitChar(n % 10)]
  }

  function Zeros(k: nat): string {
    seq(k, _ => '0')
  }

  /** A strftime numeric field: the digits of `n`, zero-padded to `width`. */
  function ZeroPad(n: nat, width: nat): string {
    var d := Digits(n);
    if |d| >= width then d else Zeros(width - |d|) + d
  }

  /** The number a string of digits denotes. */
  function Value(s: string): nat
    requires AllDigits(s)
  {
    if s == [] then 0 else Value(s[..|s| - 1]) * 10 + (s[|s| - 1] as int - '0' as int)
  }

  function Pow10(k: nat): nat {
    if k == 0 then 1 else 10 * Pow10(k - 1)
  }

  /** The digits of `n` are digits, at least one, and denote `n`. */
  lemma {:induction false} DigitsValue(n: nat)
    ensures AllDigits(Digits(n)) && |Digits(n)| >= 1
    ensures Value(Digits(n)) == n
    decreases n
  {
    if n >= 10 {
      DigitsValue(n / 10);
      var d := Digits(n);
      assert d[..|d| - 1] == Digits(n / 10);
    }
  }

  /** A number below `10^w` has at most `w` digits. */
  lemma {:induction false} DigitsLength(n: nat, w: nat)
    requires 1 <= w && n < Pow10(w)
    ensures |Digits(n)| <= w
    decreases w
  {
    if n >= 10 {
      assert w >= 2;
      DigitsLength(n / 10, w - 1);
    }
  }

  /** Leading zeros do not change the value. */
  lemma {:induction false} ValueLeadingZeros(k: nat, s: string)
    requires AllDigits(s)
    ensures AllDigits(Zeros(k) + s)
    ensures Value(Zeros(k) + s) == Value(s)
    decreases |s|
  {
    var z := Zeros(k) + s;
    if s == [] {
      assert z == Zeros(k);
      ZerosValue(k);
    } else {
      assert z[..|z| - 1] == Zeros(k) + s[..|s| - 1];
      ValueLeadingZeros(k, s[..|s| - 1]);
    }
  }

  lemma {:induction false} ZerosValue(k: nat)
    ensures AllDigits(Zeros(k)) && Value(Zeros(k)) == 0
  {
    if k > 0 {
      assert Zeros(k)[..k - 1] == Zeros(k - 1);
      ZerosValue(k - 1);
    }
  }

  /** A padded field below `10^width` has exactly `width` digits and denotes `n`. */
  lemma ZeroPadValue(n: nat, width: nat)
    requires 1 <= width && n < Pow10(width)
    ensures |ZeroPad(n, width)| == width
    ensures AllDigits(ZeroPad(n, width)) && Value(ZeroPad(n, width)) == n
  {
    DigitsValue(n);
    DigitsLength(n, width);
    if |Digits(n)| < width {
      ValueLeadingZeros(width - |Digits(n)|, Digits(n));
    }
  }

  // ---------------------------------------------------------------------
  // The call id

  /** What `datetime.now()` returned, field by field. */
  datatype Timestamp = Timestamp(year: nat, month: nat, day: nat, hour: nat, minute: nat,
                                 second: nat, microsecond: nat)

  /** The ranges a `datetime` keeps its fields in, from year 1000 on. */
  predicate ValidTimestamp(ts: Timestamp) {
    && 1000 <= ts.year <= 9999 && 1 <= ts.month <= 12 && 1 <= ts.day <= 31
    && ts.hour < 24 && ts.minute < 60 && ts.second < 60 && ts.microsecond < 1000000
  }

  /** The widths of the fields of `%Y%m%d%H%M%S%f`. */
  const FIELD_WIDTHS: seq<nat> := [4, 2, 2, 2, 2, 2, 6]

  /** The timestamp's fields in the order the format prints them. */
  function Fields(ts: Timestamp): seq<nat> {
    [ts.year, ts.month, ts.day, ts.hour, ts.minute, ts.second, ts.microsecond]
  }

  /** Each value zero-padded to its width, one after the other. */
  function FormatFields(values: seq<nat>, widths: seq<nat>): string
    requires |values| == |widths|
  {
    if values == [] then "" else ZeroPad(values[0], widths[0]) + FormatFields(values[1..], widths[1..])
  }

  /** Reading fields of the given widths back off a string that holds nothing else. */
  function ParseFields(s: string, widths: seq<nat>): (r: Option<seq<nat>>)
    ensures r.Some? ==> |r.value| == |widths| && |s| == Sum(widths)
  {
    if widths == [] then (if s == [] then Some([]) else None)
    else if |s| < widths[0] || !AllDigits(s[..widths[0]]) then None
    else match ParseFields(s[widths[0]..], widths[1..])
      case None => None
      case Some(rest) => Some([Value(s[..widths[0]])] + rest)
  }

  function Sum(ws: seq<nat>): nat {
    if ws == [] then 0 else ws[0] + Sum(ws[1..])
  }

  /** `strftime("%Y%m%d%H%M%S%f")`: for a clock reading in range, exactly
      twenty digits whose fields read back as that reading. */
  function FormatTimestamp(ts: Timestamp): (r: string)
    ensures ValidTimestamp(ts) ==>
      |r| == 20 && AllDigits(r) && ParseFields(r, FIELD_WIDTHS) == Some(Fields(ts))
  {
    TimestampFieldsRoundTrip(ts);
    FormatFields(Fields(ts), FIELD_WIDTHS)
  }

  /** The largest suffix `random.randint(0, 1_000_000)` can return. */
  const MAX_SUFFIX: nat := 1000000

  /** The call id: the timestamp digits, `_`, then the random suffix in
      decimal, which reads back as the suffix. */
  function CallId(now: Timestamp, suffix: nat): (r: string)
    ensures ValidTimestamp(now) ==>
      && |r| >= 22 && r[..20] == FormatTimestamp(now) && AllDigits(r[..20])
      && r[20] == '_' && r[21..] == Digits(suffix) && AllDigits(r[21..])
      && Value(r[21..]) == suffix
  {
    DigitsValue(suffix);
    var r := FormatTimestamp(now) + "_" + Digits(suffix);
    assert ValidTimestamp(now) ==> r[..20] == FormatTimestamp(now) && r[21..] == Digits(suffix);
    r
  }

  /** Reading a call id back into its timestamp and suffix. */
  function ParseCallId(s: string): Option<(Timestamp, nat)> {
    if |s| < 22 || s[20] != '_' || !AllDigits(s[21..]) then None
    else match ParseFields(s[..20], FIELD_WIDTHS)
      case None => None
      case Some(v) => Some((Timestamp(v[0], v[1], v[2], v[3], v[4], v[5], v[6]), Value(s[21..])))
  }

  lemma AllDigitsAppend(a: string, b: string)
    requires AllDigits(a) && AllDigits(b)
    ensures AllDigits(a + b)
  {
    assert forall i :: 0 <= i < |a + b| ==> (a + b)[i] == if i < |a| then a[i] else b[i - |a|];
  }

  /** Fields that fit their widths print as exactly that many digits, and
      read back as the same values. */
  lemma {:induction false} FieldsRoundTrip(values: seq<nat>, widths: seq<nat>)
    requires |values| == |widths|
    requires forall i :: 0 <= i < |widths| ==> 1 <= widths[i] && values[i] < Pow10(widths[i])
    ensures |FormatFields(values, widths)| == Sum(widths)
    ensures AllDigits(FormatFields(values, widths))
    ensures ParseFields(FormatFields(values, widths), widths) == Some(values)
  {
    if values != [] {
      var head := ZeroPad(values[0], widths[0]);
      var tail := FormatFields(values[1..], widths[1..]);
      ZeroPadValue(values[0], widths[0]);
      FieldsRoundTrip(values[1..], widths[1..]);
      AllDigitsAppend(head, tail);
      var f := head + tail;
      assert f[..widths[0]] == head;
      assert f[widths[0]..] == tail;
      assert [values[0]] + values[1..] == values;
    }
  }

  /** The fields of a clock reading in range fit their widths, so they print
      as twenty digits and read back as the reading. */
  lemma TimestampFieldsRoundTrip(ts: Timestamp)
    ensures ValidTimestamp(ts) ==>
      var f := FormatFields(Fields(ts), FIELD_WIDTHS);
      |f| == 20 && AllDigits(f) && ParseFields(f, FIELD_WIDTHS) == Some(Fields(ts))
  {
    if ValidTimestamp(ts) {
      assert Pow10(2) == 100 && Pow10(4) == 10000 && Pow10(6) == 1000000;
      assert Sum(FIELD_WIDTHS) == 20;
      FieldsRoundTrip(Fields(ts), FIELD_WIDTHS);
    }
  }

  /** Reading a call id back yields the timestamp and suffix it was made of. */
  lemma CallIdRoundTrip(now: Timestamp, suffix: nat)
    requires ValidTimestamp(now) && suffix <= MAX_SUFFIX
    ensures ParseCallId(CallId(now, suffix)) == Some((now, suffix))
  {
  }

  /** Different clock readings or suffixes give different call ids, so two
      requests share an entry only when both the clock and the suffix repeat. */
  lemma CallIdInjective(a: Timestamp, ra: nat, b: Timestamp, rb: nat)
    requires ValidTimestamp(a) && ra <= MAX_SUFFIX
    requires ValidTimestamp(b) && rb <= MAX_SUFFIX
    ensures CallId(a, ra) == CallId(b, rb) <==> a == b && ra == rb
  {
    CallIdRoundTrip(a, ra);
    CallIdRoundTrip(b, rb);
  }

  // ---------------------------------------------------------------------
  // The worker's accounting

  /** One usage update the worker's metered clients perform against the call:
      a prompt or completion record of `tokens` for a model, with the price
      (`None` when pricing raised after the counters were bumped). */
  datatype AccountingEvent =
    | PromptEvent(modelId: string, tokens: nat, cost: Option<real>)
    | CompletionEvent(modelId: string, tokens: nat, cost: Option<real>)

  /** The table after one event against `callId`. */
  function Apply(t: Table, callId: string, e: AccountingEvent): Table {
    match e
    case PromptEvent(m, n, c) => PromptUpdated(t, callId, m, n, c)
    case CompletionEvent(m, n, c) => CompletionUpdated(t, callId, m, n, c)
  }

  /** The table after the events, in order. */
  function Replay(t: Table, callId: string, events: seq<AccountingEvent>): Table {
    if events == [] then t else Apply(Replay(t, callId, events[..|events| - 1]), callId, events[|events| - 1])
  }

  /** The tokens the events counted. */
  function EventsTokens(events: seq<AccountingEvent>): nat {
    if events == [] then 0 else EventsTokens(events[..|events| - 1]) + events[|events| - 1].tokens
  }

  /** The cost the events priced. */
  function EventsCost(events: seq<AccountingEvent>): real {
    if events == [] then 0.0 else EventsCost(events[..|events| - 1]) + events[|events| - 1].cost.GetOr(0.0)
  }

  /** The models the events touched, each once, in order of first use. */
  function ModelsInOrder(events: seq<AccountingEvent>): seq<string> {
    if events == [] then []
    else
      var seen := ModelsInOrder(events[..|events| - 1]);
      var m := events[|events| - 1].modelId;
      if m in seen then seen else seen + [m]
  }

  /** One event changes only the call's entry, keeps the table valid, adds its
      tokens and its price to the call's totals, and keeps the models in order
      of first use. */
  lemma ApplySpec(t: Table, callId: string, e: AccountingEvent)
    requires TableValid(t)
    ensures Apply(t, callId, e) - {callId} == t - {callId}
    ensures TableValid(Apply(t, callId, e))
    ensures GetTotalNumberOfTokens(Apply(t, callId, e), callId) == GetTotalNumberOfTokens(t, callId) + e.tokens
    ensures GetTotalCost(Apply(t, callId, e), callId) == GetTotalCost(t, callId) + e.cost.GetOr(0.0)
    ensures var u := Usage(t, callId);
      Usage(Apply(t, callId, e), callId).order == if e.modelId in u.order then u.order else u.order + [e.modelId]
  {
    UpdatesKeepValid(t, callId, e.modelId, e.tokens, e.cost);
    assert WellFormed(Usage(t, callId));
    match e
    case PromptEvent(m, n, c) => PromptUpdateSpec(t, callId, m, n, c);
    case CompletionEvent(m, n, c) => CompletionUpdateSpec(t, callId, m, n, c);
  }

  /** The worker's updates leave every other call untouched, keep the table
      valid, and leave the call with exactly the tokens and cost the events
      counted on top of what it had, its models listed in order of first use. */
  lemma {:induction false} ReplaySpec(t: Table, callId: string, events: seq<AccountingEvent>)
    requires TableValid(t) && callId in t && t[callId] == NoUsage
    ensures Replay(t, callId, events) - {callId} == t - {callId}
    ensures TableValid(Replay(t, callId, events))
    ensures GetTotalNumberOfTokens(Replay(t, callId, events), callId) == EventsTokens(events)
    ensures GetTotalCost(Replay(t, callId, events), callId) == EventsCost(events)
    ensures Usage(Replay(t, callId, events), callId).order == ModelsInOrder(events)
  {
    if events != [] {
      var init := events[..|events| - 1];
      ReplaySpec(t, callId, init);
      ApplySpec(Replay(t, callId, init), callId, events[|events| - 1]);
    }
  }

  // ---------------------------------------------------------------------
  // The answer

  /** How the worker ended: with a result, or with an exception. */
  datatype Ending = Finished(result: string) | Failed(message: string)

  /** What the worker did before the handler answered: its usage updates, the
      time it took (as the event loop's clock measured it) and its ending. */
  datatype Run = Run(events: seq<AccountingEvent>, elapsed: real, ending: Ending)

  /** The JSON body of a 200 answer. */
  datatype Body = Body(result: Option<string>, time: Option<real>, timedOut: bool,
                       tokens: nat, cost: real, tokenDetails: seq<(string, TokenDetail)>)

  datatype Response = Ok(body: Body) | HttpError(status: nat, detail: string)

  /** `async with timeout(payload.timeout)` cancels a run that has not ended
      within the timeout. */
  predicate TimedOut(payload: Payload, run: Run) {
    run.elapsed >= payload.timeout as real
  }

  /** The answer, read from the table before the entry is deleted: a 200
      with no result and no time when the run timed out, a 200 with the
      result and its time when it finished in time, a 500 with the
      exception's text when it failed in time. A 200 reports the call's
      usage as the table has it. */
  function Respond(t: Table, callId: string, payload: Payload, run: Run): (r: Response)
    ensures TimedOut(payload, run) ==> r.Ok? && r.body.result.None? && r.body.time.None? && r.body.timedOut
    ensures !TimedOut(payload, run) && run.ending.Finished? ==>
      r.Ok? && r.body.result == Some(run.ending.result) && r.body.time == Some(run.elapsed) && !r.body.timedOut
    ensures !TimedOut(payload, run) && run.ending.Failed? ==> r == HttpError(500, run.ending.message)
    ensures r.Ok? ==>
      && r.body.tokens == GetTotalNumberOfTokens(t, callId) && r.body.cost == GetTotalCost(t, callId)
      && r.body.tokenDetails == GetTokenDetails(t, callId)
  {
    if TimedOut(payload, run) then
      Ok(Body(None, None, true, GetTotalNumberOfTokens(t, callId), GetTotalCost(t, callId), GetTokenDetails(t, callId)))
    else match run.ending
      case Finished(result) =>
        Ok(Body(Some(result), Some(run.elapsed), false,
                GetTotalNumberOfTokens(t, callId), GetTotalCost(t, callId), GetTokenDetails(t, callId)))
      case Failed(message) => HttpError(500, message)
  }

  /** A completed run reports its result and time; a timed-out one reports
      neither but still the usage so far; a failing one is a 500 carrying the
      exception's text. Both 200 answers report the events' tokens and cost
      and one detail per model in order of first use, with its counts. */
  lemma RespondSpec(t: Table, callId: string, payload: Payload, run: Run)
    requires callId in t && t[callId] == NoUsage
    ensures var r := Respond(Replay(t, callId, run.events), callId, payload, run);
      && (TimedOut(payload, run) ==>
            r.Ok? && r.body.result.None? && r.body.time.None? && r.body.timedOut)
      && (!TimedOut(payload, run) && run.ending.Finished? ==>
            r.Ok? && r.body.result == Some(run.ending.result) && r.body.time == Some(run.elapsed) && !r.body.timedOut)
      && (!TimedOut(payload, run) && run.ending.Failed? ==> r == HttpError(500, run.ending.message))
      && (r.Ok? ==>
            && r.body.tokens == EventsTokens(run.events)
            && r.body.cost == EventsCost(run.events)
            && DetailKeys(r.body.tokenDetails) == ModelsInOrder(run.events)
            && r.body.tokens == DetailsSum(r.body.tokenDetails))
  {
    var single := map[callId := NoUsage];
    assert TableValid(single) by {
      assert WellFormed(NoUsage) && AllConsistent(NoUsage);
    }
    ReplaySpec(single, callId, run.events);
    ReplayLocal(t, single, callId, run.events);
    ReadOutsAgree(Replay(single, callId, run.events), callId);
  }

  /** What the worker's updates leave in the call's entry depends on that
      entry alone, not on the rest of the table. */
  lemma {:induction false} ReplayLocal(t: Table, t': Table, callId: string, events: seq<AccountingEvent>)
    requires Usage(t, callId) == Usage(t', callId)
    ensures Usage(Replay(t, callId, events), callId) == Usage(Replay(t', callId, events), callId)
  {
    if events != [] {
      var init := events[..|events| - 1];
      ReplayLocal(t, t', callId, init);
    }
  }

  /** The worker's metered clients performing their usage updates, in order,
      against the call's entry. */
  method PerformEvents(counter: TokenCounter, callId: string, events: seq<AccountingEvent>)
    modifies counter
    ensures counter.table == Replay(old(counter.table), callId, events)
  {
    ghost var start := counter.table;
    for i := 0 to |events|
      invariant counter.table == Replay(start, callId, events[..i])
    {
      ReplayStep(start, callId, events, i);
      match events[i] {
        case PromptEvent(m, n, c) => counter.RecordPrompt(callId, m, n, c);
        case CompletionEvent(m, n, c) => counter.RecordCompletion(callId, m, n, c);
      }
    }
    assert events[..|events|] == events;
  }

  lemma ReplayStep(t: Table, callId: string, events: seq<AccountingEvent>, i: nat)
    requires i < |events|
    ensures Replay(t, callId, events[..i + 1]) == Apply(Replay(t, callId, events[..i]), callId, events[i])
  {
    assert events[..i + 1][..i] == events[..i];
  }

  /** `run_task`: mint the call id, open its entry, let the worker's updates
      land there, answer from the table, and delete the entry whatever the
      outcome. The other calls' entries are as they were. */
  method RunTask(counter: TokenCounter, payload: Payload, now: Timestamp, suffix: nat, run: Run)
    returns (callId: string, response: Response)
    requires ValidTimestamp(now) && suffix <= MAX_SUFFIX
    modifies counter
    ensures callId == CallId(now, suffix)
    ensures counter.table == old(counter.table) - {callId}
    ensures response == Respond(Replay(old(counter.table)[callId := NoUsage], callId, run.events), callId, payload, run)
  {
    callId := FormatTimestamp(now) + "_" + Digits(suffix);
    counter.Open(callId);
    ghost var start := counter.table;
    PerformEvents(counter, callId, run.events);
    var t := counter.table;
    var tokens := GetTotalNumberOfTokens(t, callId);
    var cost := GetTotalCost(t, callId);
    var details := GetTokenDetails(t, callId);
    if TimedOut(payload, run) {
      response := Ok(Body(None, None, true, tokens, cost, details));
    } else if run.ending.Finished? {
      response := Ok(Body(Some(run.ending.result), Some(run.elapsed), false, tokens, cost, details));
    } else {
      response := HttpError(500, run.ending.message);
    }
    ReplayFrame(start, callId, run.events);
    counter.Close(callId);
  }

  /** The worker's updates touch the call's entry only, and leave it present. */
  lemma {:induction false} ReplayFrame(t: Table, callId: string, events: seq<AccountingEvent>)
    requires callId in t
    ensures callId in Replay(t, callId, events)
    ensures Replay(t, callId, events) - {callId} == t - {callId}
  {
    if events != [] {
      var init := events[..|events| - 1];
      ReplayFrame(t, callId, init);
      var t' := Replay(t, callId, init);
      var e := events[|events| - 1];
      var m := Record(t', callId, e.modelId);
      match e
      case PromptEvent(_, n, c) => StoredFrame(t', callId, e.modelId, AfterPrompt(m, n, c));
      case CompletionEvent(_, n, c) => StoredFrame(t', callId, e.modelId, AfterCompletion(m, n, c));
    }
  }
}
