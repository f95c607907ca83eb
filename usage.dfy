/** The process-wide usage table `TOKEN_COUNTER`: call_id -> model_id -> metrics.

    The outer level is a `map`. The inner dict of one call is a `map` from
    model id to record together with the order in which its keys were first
    inserted, because Python dicts keep insertion order and
    `get_token_details` reports the models in that order. */
module UsageTable {
  import opened Wrappers

  /** The five counters of one model under one call. */
  datatype Metrics = Metrics(
    totalTokens: nat,
    promptTokens: nat,
    completionTokens: nat,
    successfulRequests: nat,
    totalCost: real)

  /** `_empty_metrics()`: every field zero. */
  const EmptyMetrics := Metrics(0, 0, 0, 0, 0.0)

  /** The inner dict of one call: its records and its keys in insertion order. */
  datatype CallUsage = CallUsage(order: seq<string>, records: map<string, Metrics>)

  /** `{}`, what the defaultdict hands out for a call it has not seen. */
  const NoUsage := CallUsage([], map[])

  type Table = map<string, CallUsage>

  /** The table's invariant on one record. */
  predicate Consistent(m: Metrics) {
    m.totalTokens == m.promptTokens + m.completionTokens
  }

  predicate Distinct(s: seq<string>) {
    forall i, j :: 0 <= i < j < |s| ==> s[i] != s[j]
  }

  /** The key order lists every key of the dict exactly once. */
  predicate WellFormed(u: CallUsage) {
    && Distinct(u.order)
    && (forall k :: k in u.records ==> k in u.order)
    && (forall k :: k in u.order ==> k in u.records)
  }

  predicate AllConsistent(u: CallUsage) {
    forall k :: k in u.records ==> Consistent(u.records[k])
  }

  /** What every call entry of the table satisfies: the key order matches the
      dict and every record keeps total == prompt + completion. */
  predicate TableValid(t: Table) {
    forall c :: c in t ==> WellFormed(t[c]) && AllConsistent(t[c])
  }

  /** `d.get(model_id)` on one call's dict. */
  function Get(u: CallUsage, modelId: string): Option<Metrics> {
    if modelId in u.records then Some(u.records[modelId]) else None
  }

  /** `d[model_id] = m`: the value is replaced in place when the key is
      present, and a new key goes to the end of the order otherwise. */
  function Put(u: CallUsage, modelId: string, m: Metrics): (r: CallUsage)
    ensures Get(r, modelId) == Some(m)
    ensures forall k {:trigger Get(r, k)} :: k != modelId ==> Get(r, k) == Get(u, k)
  {
    CallUsage(if modelId in u.records then u.order else u.order + [modelId], u.records[modelId := m])
  }

  /** Assigning a record keeps the key order matching the dict and, when the
      new record is consistent, keeps every record consistent. */
  lemma PutWellFormed(u: CallUsage, modelId: string, m: Metrics)
    ensures WellFormed(u) ==> WellFormed(Put(u, modelId, m))
    ensures AllConsistent(u) && Consistent(m) ==> AllConsistent(Put(u, modelId, m))
  {
    var r := Put(u, modelId, m);
    if WellFormed(u) && modelId !in u.records {
      assert forall i :: 0 <= i < |u.order| ==> r.order[i] == u.order[i];
    }
  }

  /** A second assignment to the same key overwrites the first one. */
  lemma PutPut(u: CallUsage, modelId: string, a: Metrics, b: Metrics)
    ensures Put(Put(u, modelId, a), modelId, b) == Put(u, modelId, b)
  {
  }

  /** Assigning a key the value it already has changes nothing. */
  lemma PutSame(u: CallUsage, modelId: string, m: Metrics)
    requires Get(u, modelId) == Some(m)
    ensures Put(u, modelId, m) == u
  {
    assert u.records[modelId := m] == u.records;
  }

  // ---------------------------------------------------------------------
  // Sums over one call's dict (`sum(map(lambda d: d[...], values()))`)

  /** The value of a key in the dict, a zero record when absent. */
  function At(rs: map<string, Metrics>, k: string): Metrics {
    if k in rs then rs[k] else EmptyMetrics
  }

  function SumTokens(order: seq<string>, rs: map<string, Metrics>): nat {
    if order == [] then 0 else SumTokens(order[..|order| - 1], rs) + At(rs, order[|order| - 1]).totalTokens
  }

  function SumCost(order: seq<string>, rs: map<string, Metrics>): real {
    if order == [] then 0.0 else SumCost(order[..|order| - 1], rs) + At(rs, order[|order| - 1]).totalCost
  }

  function TotalTokens(u: CallUsage): nat {
    SumTokens(u.order, u.records)
  }

  function TotalCost(u: CallUsage): real {
    SumCost(u.order, u.records)
  }

  /** Changing a key that the order does not list leaves the sums alone. */
  lemma {:induction false} SumsUnlisted(order: seq<string>, rs: map<string, Metrics>, k: string, m: Metrics)
    requires k !in order
    ensures SumTokens(order, rs[k := m]) == SumTokens(order, rs)
    ensures SumCost(order, rs[k := m]) == SumCost(order, rs)
  {
    if order != [] {
      SumsUnlisted(order[..|order| - 1], rs, k, m);
    }
  }

  /** Changing a key listed once changes the sums by the difference of the
      new and the old value. */
  lemma {:induction false} SumsReplaced(order: seq<string>, rs: map<string, Metrics>, k: string, m: Metrics)
    requires Distinct(order) && k in order
    ensures SumTokens(order, rs[k := m]) + At(rs, k).totalTokens == SumTokens(order, rs) + m.totalTokens
    ensures SumCost(order, rs[k := m]) + At(rs, k).totalCost == SumCost(order, rs) + m.totalCost
  {
    var init := order[..|order| - 1];
    if order[|order| - 1] == k {
      assert k !in init;
      SumsUnlisted(init, rs, k, m);
    } else {
      assert k in init;
      SumsReplaced(init, rs, k, m);
    }
  }

  /** Assigning a record changes the sums by exactly the difference between the
      new record and the one it replaces (a zero record when it was absent). */
  lemma SumsAfterPut(u: CallUsage, modelId: string, m: Metrics)
    requires WellFormed(u)
    ensures TotalTokens(Put(u, modelId, m)) + Get(u, modelId).GetOr(EmptyMetrics).totalTokens
            == TotalTokens(u) + m.totalTokens
    ensures TotalCost(Put(u, modelId, m)) + Get(u, modelId).GetOr(EmptyMetrics).totalCost
            == TotalCost(u) + m.totalCost
  {
    var r := Put(u, modelId, m);
    if modelId in u.records {
      SumsReplaced(u.order, u.records, modelId, m);
    } else {
      assert r.order[..|r.order| - 1] == u.order;
      SumsUnlisted(u.order, u.records, modelId, m);
    }
  }

  /** One model's entry in `get_token_details`. */
  datatype TokenDetail = TokenDetail(promptTokens: nat, completionTokens: nat)

  /** The comprehension of `get_token_details` over the keys, in order. */
  function Details(order: seq<string>, rs: map<string, Metrics>): seq<(string, TokenDetail)> {
    if order == [] then []
    else
      var k := order[|order| - 1];
      Details(order[..|order| - 1], rs) + [(k, TokenDetail(At(rs, k).promptTokens, At(rs, k).completionTokens))]
  }

  function TokenDetails(u: CallUsage): seq<(string, TokenDetail)> {
    Details(u.order, u.records)
  }

  /** Prompt plus completion tokens over a details list. */
  function DetailsSum(d: seq<(string, TokenDetail)>): nat {
    if d == [] then 0 else DetailsSum(d[..|d| - 1]) + d[|d| - 1].1.promptTokens + d[|d| - 1].1.completionTokens
  }

  function DetailKeys(d: seq<(string, TokenDetail)>): seq<string> {
    if d == [] then [] else DetailKeys(d[..|d| - 1]) + [d[|d| - 1].0]
  }

  /** The details list has the keys in order, each with that model's prompt
      and completion counts. */
  lemma {:induction false} DetailsFaithful(order: seq<string>, rs: map<string, Metrics>)
    ensures DetailKeys(Details(order, rs)) == order
    ensures |Details(order, rs)| == |order|
    ensures forall i :: 0 <= i < |order| ==>
      Details(order, rs)[i] == (order[i], TokenDetail(At(rs, order[i]).promptTokens, At(rs, order[i]).completionTokens))
  {
    if order != [] {
      var init := order[..|order| - 1];
      DetailsFaithful(init, rs);
      var d := Details(order, rs);
      assert d[..|d| - 1] == Details(init, rs);
      forall i | 0 <= i < |order|
        ensures d[i] == (order[i], TokenDetail(At(rs, order[i]).promptTokens, At(rs, order[i]).completionTokens))
      {
        if i < |init| {
          assert d[i] == Details(init, rs)[i];
          assert init[i] == order[i];
        }
      }
    }
  }

  /** Appending one entry to a details list adds its two counts to the sum. */
  lemma DetailsSumSnoc(d: seq<(string, TokenDetail)>, e: (string, TokenDetail))
    ensures DetailsSum(d + [e]) == DetailsSum(d) + e.1.promptTokens + e.1.completionTokens
  {
    assert (d + [e])[..|d + [e]| - 1] == d;
  }

  /** When every record is consistent, the prompt and completion counts of
      the details list add up to the token sum. */
  lemma {:induction false} DetailsSumIsTotal(order: seq<string>, rs: map<string, Metrics>)
    requires forall k :: k in rs ==> Consistent(rs[k])
    ensures DetailsSum(Details(order, rs)) == SumTokens(order, rs)
  {
    if order != [] {
      var init := order[..|order| - 1];
      DetailsSumIsTotal(init, rs);
      var k := order[|order| - 1];
      DetailsSumSnoc(Details(init, rs), (k, TokenDetail(At(rs, k).promptTokens, At(rs, k).completionTokens)));
    }
  }

  // ---------------------------------------------------------------------
  // The table through the defaultdict

  /** `TOKEN_COUNTER[call_id]`: an absent call reads as an empty dict. */
  function Usage(t: Table, callId: string): CallUsage {
    if callId in t then t[callId] else NoUsage
  }

  /** The record `(call_id, model_id)` as an update starts from it: the
      existing record, or `_empty_metrics()` when there is none yet. */
  function Record(t: Table, callId: string, modelId: string): Metrics {
    Get(Usage(t, callId), modelId).GetOr(EmptyMetrics)
  }

  /** `TOKEN_COUNTER[call_id][model_id] = m`. */
  function Stored(t: Table, callId: string, modelId: string, m: Metrics): Table {
    t[callId := Put(Usage(t, callId), modelId, m)]
  }

  /** After the store the record reads back as stored, every other record of
      the call is as it was, and the other calls are untouched. */
  lemma StoredFrame(t: Table, callId: string, modelId: string, m: Metrics)
    ensures var t' := Stored(t, callId, modelId, m);
      && callId in t' && Get(Usage(t', callId), modelId) == Some(m)
      && (forall k {:trigger Get(Usage(t', callId), k)} :: k != modelId ==> Get(Usage(t', callId), k) == Get(Usage(t, callId), k))
      && t' - {callId} == t - {callId}
  {
  }

  lemma StoredStored(t: Table, callId: string, modelId: string, a: Metrics, b: Metrics)
    ensures Stored(Stored(t, callId, modelId, a), callId, modelId, b) == Stored(t, callId, modelId, b)
  {
    PutPut(Usage(t, callId), modelId, a, b);
  }

  /** Storing the record a call already holds leaves the table as it is. */
  lemma StoredSame(t: Table, callId: string, modelId: string)
    requires Get(Usage(t, callId), modelId).Some?
    ensures Stored(t, callId, modelId, Record(t, callId, modelId)) == t
  {
    PutSame(Usage(t, callId), modelId, Record(t, callId, modelId));
  }

  /** `get_total_number_of_tokens(call_id)`: a call with no record, whether
      absent from the table or opened and never used, has used no tokens. */
  function GetTotalNumberOfTokens(t: Table, callId: string): (r: nat)
    ensures Usage(t, callId).order == [] ==> r == 0
  {
    TotalTokens(Usage(t, callId))
  }

  /** `get_total_cost(call_id)`: a call with no record has cost nothing. */
  function GetTotalCost(t: Table, callId: string): (r: real)
    ensures Usage(t, callId).order == [] ==> r == 0.0
  {
    TotalCost(Usage(t, callId))
  }

  /** `get_token_details(call_id)`: one entry per model of the call, in the
      order the models were first recorded. */
  function GetTokenDetails(t: Table, callId: string): (r: seq<(string, TokenDetail)>)
    ensures |r| == |Usage(t, callId).order|
    ensures DetailKeys(r) == Usage(t, callId).order
  {
    DetailsFaithful(Usage(t, callId).order, Usage(t, callId).records);
    TokenDetails(Usage(t, callId))
  }

  /** Each entry of `get_token_details` carries its model's prompt and
      completion counts. */
  lemma TokenDetailsFaithful(t: Table, callId: string)
    ensures forall i :: 0 <= i < |Usage(t, callId).order| ==>
      var k := Usage(t, callId).order[i];
      GetTokenDetails(t, callId)[i] == (k, TokenDetail(Record(t, callId, k).promptTokens, Record(t, callId, k).completionTokens))
  {
    var u := Usage(t, callId);
    DetailsFaithful(u.order, u.records);
    forall k ensures Record(t, callId, k) == At(u.records, k) {
      RecordIsAt(t, callId, k);
    }
  }

  lemma RecordIsAt(t: Table, callId: string, modelId: string)
    ensures Record(t, callId, modelId) == At(Usage(t, callId).records, modelId)
  {
  }

  /** On a valid table `get_token_details` names a model exactly when the call
      has a record for it, and its counts add up to `get_total_number_of_tokens`. */
  lemma ReadOutsAgree(t: Table, callId: string)
    requires TableValid(t)
    ensures forall k :: Get(Usage(t, callId), k).Some? <==> k in DetailKeys(GetTokenDetails(t, callId))
    ensures GetTotalNumberOfTokens(t, callId) == DetailsSum(GetTokenDetails(t, callId))
  {
    var u := Usage(t, callId);
    DetailsFaithful(u.order, u.records);
    assert WellFormed(u) && AllConsistent(u);
    DetailsSumIsTotal(u.order, u.records);
  }

  // ---------------------------------------------------------------------
  // What one prompt or completion update does to a record

  /** Lines `total_tokens += tokens`, `prompt_tokens += tokens`,
      `successful_requests += 1` and, when pricing succeeded, `total_cost += cost`. */
  function AfterPrompt(m: Metrics, tokens: nat, cost: Option<real>): (r: Metrics)
    ensures r.promptTokens == m.promptTokens + tokens
    ensures r.totalTokens == m.totalTokens + tokens
    ensures r.completionTokens == m.completionTokens
    ensures r.successfulRequests == m.successfulRequests + 1
    ensures r.totalCost == m.totalCost + cost.GetOr(0.0)
  {
    var bumped := m.(totalTokens := m.totalTokens + tokens,
                     promptTokens := m.promptTokens + tokens,
                     successfulRequests := m.successfulRequests + 1);
    if cost.Some? then bumped.(totalCost := bumped.totalCost + cost.value) else bumped
  }

  /** Lines `total_tokens += tokens`, `completion_tokens += tokens` and, when
      pricing succeeded, `total_cost += cost`. */
  function AfterCompletion(m: Metrics, tokens: nat, cost: Option<real>): (r: Metrics)
    ensures r.completionTokens == m.completionTokens + tokens
    ensures r.totalTokens == m.totalTokens + tokens
    ensures r.promptTokens == m.promptTokens
    ensures r.successfulRequests == m.successfulRequests
    ensures r.totalCost == m.totalCost + cost.GetOr(0.0)
  {
    var bumped := m.(totalTokens := m.totalTokens + tokens,
                     completionTokens := m.completionTokens + tokens);
    if cost.Some? then bumped.(totalCost := bumped.totalCost + cost.value) else bumped
  }

  /** Both updates add the same count to the total and to one of its two
      parts, so a consistent record stays consistent. */
  lemma UpdatesKeepConsistent(m: Metrics, tokens: nat, cost: Option<real>)
    ensures Consistent(m) ==> Consistent(AfterPrompt(m, tokens, cost))
    ensures Consistent(m) ==> Consistent(AfterCompletion(m, tokens, cost))
  {
  }

  /** The table after a prompt update of `(call_id, model_id)`: the call then
      has a record for the model, and no other call changed. */
  function PromptUpdated(t: Table, callId: string, modelId: string, tokens: nat, cost: Option<real>): (r: Table)
    ensures callId in r && Get(Usage(r, callId), modelId).Some?
    ensures r - {callId} == t - {callId}
  {
    Stored(t, callId, modelId, AfterPrompt(Record(t, callId, modelId), tokens, cost))
  }

  /** The table after a completion update of `(call_id, model_id)`: the call
      then has a record for the model, and no other call changed. */
  function CompletionUpdated(t: Table, callId: string, modelId: string, tokens: nat, cost: Option<real>): (r: Table)
    ensures callId in r && Get(Usage(r, callId), modelId).Some?
    ensures r - {callId} == t - {callId}
  {
    Stored(t, callId, modelId, AfterCompletion(Record(t, callId, modelId), tokens, cost))
  }

  /** Two priced completion updates of a record amount to one update by the
      sum of their tokens and of their costs. */
  lemma CompletionsCompose(t: Table, callId: string, modelId: string, a: nat, b: nat, ca: real, cb: real)
    ensures CompletionUpdated(CompletionUpdated(t, callId, modelId, a, Some(ca)), callId, modelId, b, Some(cb))
            == CompletionUpdated(t, callId, modelId, a + b, Some(ca + cb))
  {
    var m1 := AfterCompletion(Record(t, callId, modelId), a, Some(ca));
    RecordAfterStored(t, callId, modelId, m1);
    AfterCompletionAdd(Record(t, callId, modelId), a, b, ca, cb);
    StoredStored(t, callId, modelId, m1, AfterCompletion(m1, b, Some(cb)));
  }

  lemma AfterCompletionAdd(m: Metrics, a: nat, b: nat, ca: real, cb: real)
    ensures AfterCompletion(AfterCompletion(m, a, Some(ca)), b, Some(cb)) == AfterCompletion(m, a + b, Some(ca + cb))
  {
  }

  /** A stored record is what the next update starts from. */
  lemma RecordAfterStored(t: Table, callId: string, modelId: string, m: Metrics)
    ensures Record(Stored(t, callId, modelId, m), callId, modelId) == m
  {
  }

  /** A prompt update creates the record zeroed on first use and never resets
      an existing one; it changes only that call; and the call's totals grow
      by the tokens counted and the cost priced. */
  lemma PromptUpdateSpec(t: Table, callId: string, modelId: string, tokens: nat, cost: Option<real>)
    requires TableValid(t)
    ensures Get(Usage(t, callId), modelId).None? ==>
      Get(Usage(PromptUpdated(t, callId, modelId, tokens, cost), callId), modelId)
        == Some(Metrics(tokens, tokens, 0, 1, cost.GetOr(0.0)))
    ensures Get(Usage(t, callId), modelId).Some? ==>
      Get(Usage(PromptUpdated(t, callId, modelId, tokens, cost), callId), modelId)
        == Some(AfterPrompt(Get(Usage(t, callId), modelId).value, tokens, cost))
    ensures PromptUpdated(t, callId, modelId, tokens, cost) - {callId} == t - {callId}
    ensures GetTotalNumberOfTokens(PromptUpdated(t, callId, modelId, tokens, cost), callId)
            == GetTotalNumberOfTokens(t, callId) + tokens
    ensures GetTotalCost(PromptUpdated(t, callId, modelId, tokens, cost), callId)
            == GetTotalCost(t, callId) + cost.GetOr(0.0)
  {
    assert WellFormed(Usage(t, callId));
    PromptRecord(t, callId, modelId, tokens, cost);
    PromptTotals(t, callId, modelId, tokens, cost);
  }

  lemma PromptRecord(t: Table, callId: string, modelId: string, tokens: nat, cost: Option<real>)
    ensures Get(Usage(t, callId), modelId).None? ==>
      Get(Usage(PromptUpdated(t, callId, modelId, tokens, cost), callId), modelId)
        == Some(Metrics(tokens, tokens, 0, 1, cost.GetOr(0.0)))
    ensures Get(Usage(t, callId), modelId).Some? ==>
      Get(Usage(PromptUpdated(t, callId, modelId, tokens, cost), callId), modelId)
        == Some(AfterPrompt(Get(Usage(t, callId), modelId).value, tokens, cost))
    ensures PromptUpdated(t, callId, modelId, tokens, cost) - {callId} == t - {callId}
  {
    StoredFrame(t, callId, modelId, AfterPrompt(Record(t, callId, modelId), tokens, cost));
    FreshAfterPrompt(tokens, cost);
  }

  lemma FreshAfterPrompt(tokens: nat, cost: Option<real>)
    ensures AfterPrompt(EmptyMetrics, tokens, cost) == Metrics(tokens, tokens, 0, 1, cost.GetOr(0.0))
  {
  }

  lemma PromptTotals(t: Table, callId: string, modelId: string, tokens: nat, cost: Option<real>)
    requires WellFormed(Usage(t, callId))
    ensures GetTotalNumberOfTokens(PromptUpdated(t, callId, modelId, tokens, cost), callId)
            == GetTotalNumberOfTokens(t, callId) + tokens
    ensures GetTotalCost(PromptUpdated(t, callId, modelId, tokens, cost), callId)
            == GetTotalCost(t, callId) + cost.GetOr(0.0)
  {
    var u := Usage(t, callId);
    var m := AfterPrompt(Record(t, callId, modelId), tokens, cost);
    SumsAfterPut(u, modelId, m);
  }

  /** A completion update creates the record zeroed on first use and never
      resets an existing one; it changes only that call; and the call's totals
      grow by the tokens counted and the cost priced. */
  lemma CompletionUpdateSpec(t: Table, callId: string, modelId: string, tokens: nat, cost: Option<real>)
    requires TableValid(t)
    ensures Get(Usage(t, callId), modelId).None? ==>
      Get(Usage(CompletionUpdated(t, callId, modelId, tokens, cost), callId), modelId)
        == Some(Metrics(tokens, 0, tokens, 0, cost.GetOr(0.0)))
    ensures Get(Usage(t, callId), modelId).Some? ==>
      Get(Usage(CompletionUpdated(t, callId, modelId, tokens, cost), callId), modelId)
        == Some(AfterCompletion(Get(Usage(t, callId), modelId).value, tokens, cost))
    ensures CompletionUpdated(t, callId, modelId, tokens, cost) - {callId} == t - {callId}
    ensures GetTotalNumberOfTokens(CompletionUpdated(t, callId, modelId, tokens, cost), callId)
            == GetTotalNumberOfTokens(t, callId) + tokens
    ensures GetTotalCost(CompletionUpdated(t, callId, modelId, tokens, cost), callId)
            == GetTotalCost(t, callId) + cost.GetOr(0.0)
  {
    assert WellFormed(Usage(t, callId));
    CompletionRecord(t, callId, modelId, tokens, cost);
    CompletionTotals(t, callId, modelId, tokens, cost);
  }

  lemma CompletionRecord(t: Table, callId: string, modelId: string, tokens: nat, cost: Option<real>)
    ensures Get(Usage(t, callId), modelId).None? ==>
      Get(Usage(CompletionUpdated(t, callId, modelId, tokens, cost), callId), modelId)
        == Some(Metrics(tokens, 0, tokens, 0, cost.GetOr(0.0)))
    ensures Get(Usage(t, callId), modelId).Some? ==>
      Get(Usage(CompletionUpdated(t, callId, modelId, tokens, cost), callId), modelId)
        == Some(AfterCompletion(Get(Usage(t, callId), modelId).value, tokens, cost))
    ensures CompletionUpdated(t, callId, modelId, tokens, cost) - {callId} == t - {callId}
  {
    StoredFrame(t, callId, modelId, AfterCompletion(Record(t, callId, modelId), tokens, cost));
    FreshAfterCompletion(tokens, cost);
  }

  lemma FreshAfterCompletion(tokens: nat, cost: Option<real>)
    ensures AfterCompletion(EmptyMetrics, tokens, cost) == Metrics(tokens, 0, tokens, 0, cost.GetOr(0.0))
  {
  }

  lemma CompletionTotals(t: Table, callId: string, modelId: string, tokens: nat, cost: Option<real>)
    requires WellFormed(Usage(t, callId))
    ensures GetTotalNumberOfTokens(CompletionUpdated(t, callId, modelId, tokens, cost), callId)
            == GetTotalNumberOfTokens(t, callId) + tokens
    ensures GetTotalCost(CompletionUpdated(t, callId, modelId, tokens, cost), callId)
            == GetTotalCost(t, callId) + cost.GetOr(0.0)
  {
    var u := Usage(t, callId);
    var m := AfterCompletion(Record(t, callId, modelId), tokens, cost);
    SumsAfterPut(u, modelId, m);
  }

  /** Prompt and completion updates keep the table valid. */
  lemma UpdatesKeepValid(t: Table, callId: string, modelId: string, tokens: nat, cost: Option<real>)
    requires TableValid(t)
    ensures TableValid(PromptUpdated(t, callId, modelId, tokens, cost))
    ensures TableValid(CompletionUpdated(t, callId, modelId, tokens, cost))
  {
    RecordConsistent(t, callId, modelId);
    UpdatesKeepConsistent(Record(t, callId, modelId), tokens, cost);
    StoredKeepsValid(t, callId, modelId, AfterPrompt(Record(t, callId, modelId), tokens, cost));
    StoredKeepsValid(t, callId, modelId, AfterCompletion(Record(t, callId, modelId), tokens, cost));
  }

  /** Storing a consistent record keeps the table valid. */
  lemma StoredKeepsValid(t: Table, callId: string, modelId: string, m: Metrics)
    requires TableValid(t) && Consistent(m)
    ensures TableValid(Stored(t, callId, modelId, m))
  {
    var t' := Stored(t, callId, modelId, m);
    var u := Usage(t, callId);
    assert WellFormed(u) && AllConsistent(u);
    forall c | c in t' ensures WellFormed(t'[c]) && AllConsistent(t'[c]) {
      if c == callId {
        PutWellFormed(u, modelId, m);
        assert t'[c] == Put(u, modelId, m);
      } else {
        assert t'[c] == t[c];
      }
    }
  }

  /** On a valid table, the record an update starts from is consistent. */
  lemma RecordConsistent(t: Table, callId: string, modelId: string)
    requires TableValid(t)
    ensures Consistent(Record(t, callId, modelId))
  {
  }

  /** The table `TOKEN_COUNTER` itself, shared by every wrapper and the HTTP handler. */
  class TokenCounter {
    var table: Table

    constructor ()
      ensures table == map[]
    {
      table := map[];
    }

    /** `TOKEN_COUNTER[call_id] = {}`. */
    method Open(callId: string)
      modifies this
      ensures table == old(table)[callId := NoUsage]
    {
      table := table[callId := NoUsage];
    }

    /** `del TOKEN_COUNTER[call_id]` (a missing key would raise). */
    method Close(callId: string)
      requires callId in table
      modifies this
      ensures table == old(table) - {callId}
    {
      table := table - {callId};
    }

    /** The body of `_update_token_counter_prompt` after the tokens are
        counted: create the record zeroed if absent, bump the token fields and
        the request count, then add the cost. `cost` is `None` when pricing
        raised: the exception leaves the bumped counters in place. */
    method RecordPrompt(callId: string, modelId: string, tokens: nat, cost: Option<real>)
      modifies this
      ensures table == PromptUpdated(old(table), callId, modelId, tokens, cost)
    {
      ghost var u0 := Usage(table, callId);
      if Get(Usage(table, callId), modelId).None? {
        table := table[callId := Put(Usage(table, callId), modelId, EmptyMetrics)];
      }
      var m := Usage(table, callId).records[modelId];
      m := m.(totalTokens := m.totalTokens + tokens,
              promptTokens := m.promptTokens + tokens,
              successfulRequests := m.successfulRequests + 1);
      PutPut(u0, modelId, EmptyMetrics, m);
      table := table[callId := Put(Usage(table, callId), modelId, m)];
      if cost.None? {
        return;
      }
      var m' := m.(totalCost := m.totalCost + cost.value);
      PutPut(u0, modelId, m, m');
      table := table[callId := Put(Usage(table, callId), modelId, m')];
    }

    /** The body of `_update_token_counter_completion` after the tokens are
        counted: create the record zeroed if absent, bump the token fields,
        then add the cost (`None` when pricing raised). */
    method RecordCompletion(callId: string, modelId: string, tokens: nat, cost: Option<real>)
      modifies this
      ensures table == CompletionUpdated(old(table), callId, modelId, tokens, cost)
    {
      ghost var u0 := Usage(table, callId);
      if Get(Usage(table, callId), modelId).None? {
        table := table[callId := Put(Usage(table, callId), modelId, EmptyMetrics)];
      }
      var m := Usage(table, callId).records[modelId];
      m := m.(totalTokens := m.totalTokens + tokens,
              completionTokens := m.completionTokens + tokens);
      PutPut(u0, modelId, EmptyMetrics, m);
      table := table[callId := Put(Usage(table, callId), modelId, m)];
      if cost.None? {
        return;
      }
      var m' := m.(totalCost := m.totalCost + cost.value);
      PutPut(u0, modelId, m, m');
      table := table[callId := Put(Usage(table, callId), modelId, m')];
    }
  }
}
