/** Requests repeated with a rejected parameter removed: the payload adjusters and the capped loops
    around them. */
module ParamRetry {
  import opened Text

  /** A JSON object a request is built in. */
  class Payload<V> {
    var fields: map<string, V>

    constructor (fields: map<string, V>)
      ensures this.fields == fields
    {
      this.fields := fields;
    }
  }

  datatype Reply = Reply(status: int, body: string)

  /** Which adjuster watches the replies. */
  datatype Dialect = OpenAI | Anthropic

  predicate Contains(s: string, part: string) {
    exists i :: 0 <= i <= |s| - |part| && s[i..][..|part|] == part
  }

  predicate Quoted(body: string, key: string) {
    Contains(body, "`" + key + "`") || Contains(body, "'" + key + "'")
  }

  /** Does the reply name this parameter as the offending one? */
  predicate Rejects(dialect: Dialect, body: string, key: string) {
    match dialect
    case OpenAI =>
      if key == "max_tokens" then Contains(body, "max_completion_tokens") else Contains(body, "'temperature'")
    case Anthropic => Quoted(body, key)
  }

  /** The parameters an adjuster can take away. */
  function Adjustable(dialect: Dialect): set<string> {
    match dialect
    case OpenAI => {"max_tokens", "temperature"}
    case Anthropic => {"temperature", "top_p", "top_k"}
  }

  /** The parameters of the payload that the reply rejects. */
  function Offending<V>(dialect: Dialect, fields: map<string, V>, body: string): (r: set<string>)
    ensures r <= Adjustable(dialect)
  {
    set key | key in Adjustable(dialect) && key in fields && Rejects(dialect, body, key)
  }

  /** Offending parameters go; OpenAI's `max_tokens` comes back under its new name. */
  function Adjusted<V>(dialect: Dialect, fields: map<string, V>, body: string): map<string, V> {
    var gone := Offending(dialect, fields, body);
    if dialect == OpenAI && "max_tokens" in gone then
      (fields - gone)["max_completion_tokens" := fields["max_tokens"]]
    else fields - gone
  }

  predicate Adjusts<V>(dialect: Dialect, fields: map<string, V>, reply: Reply) {
    reply.status == 400 && Offending(dialect, fields, reply.body) != {}
  }

  ghost predicate Has(body: string, part: string) {
    exists before: string, after: string :: body == before + part + after
  }

  lemma ContainsExactly(body: string, part: string)
    ensures Contains(body, part) <==> Has(body, part)
  {
    if Contains(body, part) {
      var i :| 0 <= i <= |body| - |part| && body[i..][..|part|] == part;
      assert body == body[..i] + part + body[i + |part|..];
    }
    if Has(body, part) {
      var before: string, after: string :| body == before + part + after;
      assert body[|before|..][..|part|] == part;
    }
  }

  /** MAIN RESULT. What is retried with, key by key: a 400 that speaks of `max_completion_tokens` moves
      `max_tokens` there, and one that quotes `temperature` takes it away; nothing else changes. */
  lemma OpenAIAdjustsExactly<V>(fields: map<string, V>, reply: Reply)
    ensures var renamed := "max_tokens" in fields && Has(reply.body, "max_completion_tokens");
      var dropped := "temperature" in fields && Has(reply.body, "'temperature'");
      var after := Adjusted(OpenAI, fields, reply.body);
      && (Adjusts(OpenAI, fields, reply) <==> reply.status == 400 && (renamed || dropped))
      && ("max_tokens" in after <==> "max_tokens" in fields && !renamed)
      && (renamed ==> "max_completion_tokens" in after && after["max_completion_tokens"] == fields["max_tokens"])
      && ("temperature" in after <==> "temperature" in fields && !dropped)
      && forall k :: k != "max_tokens" && k != "temperature" && !(renamed && k == "max_completion_tokens") ==>
           (k in after <==> k in fields) && (k in fields ==> after[k] == fields[k])
  {
    ContainsExactly(reply.body, "max_completion_tokens");
    ContainsExactly(reply.body, "'temperature'");
    OpenAIOffending(fields, reply.body);
    assert "max_tokens"[0] != "temperature"[0] && "max_completion_tokens"[0] != "temperature"[0];
    assert |"max_tokens"| != |"max_completion_tokens"|;
  }

  /** The same for Anthropic: each of the three sampling parameters goes if the 400 names it between
      quotes or backquotes. */
  lemma AnthropicAdjustsExactly<V>(fields: map<string, V>, reply: Reply, key: string)
    ensures var named := Has(reply.body, "'" + key + "'") || Has(reply.body, "`" + key + "`");
      var sampling := key == "temperature" || key == "top_p" || key == "top_k";
      var after := Adjusted(Anthropic, fields, reply.body);
      && (key in after <==> key in fields && !(sampling && named))
      && (key in after ==> after[key] == fields[key])
      && (reply.status == 400 && key in fields && sampling && named ==> Adjusts(Anthropic, fields, reply))
      && (Adjusts(Anthropic, fields, reply) ==> reply.status == 400 && after != fields)
  {
    ContainsExactly(reply.body, "'" + key + "'");
    ContainsExactly(reply.body, "`" + key + "`");
    assert key in Offending(Anthropic, fields, reply.body) <==>
      key in Adjustable(Anthropic) && key in fields && Quoted(reply.body, key);
    if Offending(Anthropic, fields, reply.body) != {} {
      var gone :| gone in Offending(Anthropic, fields, reply.body);
      assert gone in fields && gone !in Adjusted(Anthropic, fields, reply.body);
    }
  }

  /** `cloneJSONMap`: a new object with the same fields. */
  method CloneJSONMap<V>(raw: Payload<V>) returns (out: Payload<V>)
    ensures fresh(out) && out.fields == raw.fields
  {
    var copied: map<string, V> := map[];
    var left := raw.fields.Keys;
    while left != {}
      invariant left <= raw.fields.Keys
      invariant copied == map k | k in raw.fields && k !in left :: raw.fields[k]
      decreases left
    {
      var k :| k in left;
      copied := copied[k := raw.fields[k]];
      left := left - {k};
    }
    out := new Payload(copied);
  }

  method OpenAIPayloadForUnsupportedParams<V>(payload: Payload<V>, status: int, responseBody: string)
    returns (adjusted: Payload<V>, ok: bool)
    ensures ok == Adjusts(OpenAI, payload.fields, Reply(status, responseBody))
    ensures ok ==> fresh(adjusted) && adjusted.fields == Adjusted(OpenAI, payload.fields, responseBody)
    ensures !ok ==> adjusted == payload
  {
    adjusted := payload;
    if status != 400 {
      return payload, false;
    }
    adjusted := CloneJSONMap(payload);
    var changed := false;
    if Contains(responseBody, "max_completion_tokens") {
      if "max_tokens" in adjusted.fields {
        var v := adjusted.fields["max_tokens"];
        adjusted.fields := adjusted.fields - {"max_tokens"};
        adjusted.fields := adjusted.fields["max_completion_tokens" := v];
        changed := true;
      }
    }
    if Contains(responseBody, "'temperature'") {
      if "temperature" in adjusted.fields {
        adjusted.fields := adjusted.fields - {"temperature"};
        changed := true;
      }
    }
    OpenAIOffending(payload.fields, responseBody);
    if !changed {
      return payload, false;
    }
    ok := true;
  }

  lemma OpenAIOffending<V>(fields: map<string, V>, body: string)
    ensures Offending(OpenAI, fields, body)
      == (if "max_tokens" in fields && Contains(body, "max_completion_tokens") then {"max_tokens"} else {})
       + (if "temperature" in fields && Contains(body, "'temperature'") then {"temperature"} else {})
  {
    assert "max_tokens" != "temperature";
  }

  method AnthropicPayloadForUnsupportedParams<V>(payload: Payload<V>, status: int, responseBody: string)
    returns (adjusted: Payload<V>, ok: bool)
    ensures ok == Adjusts(Anthropic, payload.fields, Reply(status, responseBody))
    ensures ok ==> fresh(adjusted) && adjusted.fields == Adjusted(Anthropic, payload.fields, responseBody)
    ensures !ok ==> adjusted == payload
  {
    if status != 400 {
      return payload, false;
    }
    adjusted := CloneJSONMap(payload);
    var changed := false;
    var keys := ["temperature", "top_p", "top_k"];
    ghost var seen: set<string> := {};
    for i := 0 to |keys|
      invariant fresh(adjusted)
      invariant seen == set k | k in keys[..i]
      invariant adjusted.fields == payload.fields - (Offending(Anthropic, payload.fields, responseBody) * seen)
      invariant changed == (Offending(Anthropic, payload.fields, responseBody) * seen != {})
    {
      var key := keys[i];
      assert keys[..i + 1] == keys[..i] + [key];
      assert key in Adjustable(Anthropic);
      seen := seen + {key};
      if key !in adjusted.fields {
        continue;
      }
      if !Quoted(responseBody, key) {
        continue;
      }
      adjusted.fields := adjusted.fields - {key};
      changed := true;
    }
    assert "temperature" == keys[0] && "top_p" == keys[1] && "top_k" == keys[2];
    assert seen == Adjustable(Anthropic);
    ghost var offending := Offending(Anthropic, payload.fields, responseBody);
    assert offending * seen == offending;
    if !changed {
      return payload, false;
    }
    ok := true;
  }

  // ---------------------------------------------------------------- the retry loops

  /** What is asked of the upstream: any reply at all to its n-th call. */
  type Service<!V> = (nat, map<string, V>) -> Reply

  /** Calls until no adjustment applies; terminates because each one takes a parameter away. */
  function Settled<V>(dialect: Dialect, up: Service<V>, fields: map<string, V>, n: nat):
      (map<string, V>, Reply, nat)
    decreases |fields.Keys * Adjustable(dialect)|
  {
    var reply := up(n, fields);
    if Adjusts(dialect, fields, reply) then
      Shrinks(dialect, fields, reply.body);
      Settled(dialect, up, Adjusted(dialect, fields, reply.body), n + 1)
    else (fields, reply, n + 1)
  }

  /** MAIN RESULT. An adjustment takes at least one parameter out of a set it never adds to, and
      touches nothing else but the new name of `max_tokens`. */
  lemma Shrinks<V>(dialect: Dialect, fields: map<string, V>, body: string)
    requires Offending(dialect, fields, body) != {}
    ensures var after := Adjusted(dialect, fields, body);
      after.Keys * Adjustable(dialect) < fields.Keys * Adjustable(dialect)
      && |after.Keys * Adjustable(dialect)| < |fields.Keys * Adjustable(dialect)|
      && (forall k :: k !in Adjustable(dialect) + {"max_completion_tokens"} ==>
            (k in after <==> k in fields) && (k in fields ==> after[k] == fields[k]))
  {
    var after, gone := Adjusted(dialect, fields, body), Offending(dialect, fields, body);
    var left, before := after.Keys * Adjustable(dialect), fields.Keys * Adjustable(dialect);
    assert "max_completion_tokens" !in Adjustable(dialect);
    assert left <= before;
    var key :| key in gone;
    assert key in before && key !in left;
    SmallerSet(left, before);
  }

  lemma {:induction false} SmallerSet<T>(a: set<T>, b: set<T>)
    requires a < b
    ensures |a| < |b|
  {
    assert b == a + (b - a) && b - a != {};
    assert |b| == |a| + |b - a|;
  }

  /** The loop as it is written: at most two adjustments. */
  function Capped<V>(dialect: Dialect, up: Service<V>, fields: map<string, V>, n: nat): (map<string, V>, Reply, nat)
    decreases if n < 2 then 2 - n else 0
  {
    var reply := up(n, fields);
    if n < 2 && Adjusts(dialect, fields, reply) then
      Capped(dialect, up, Adjusted(dialect, fields, reply.body), n + 1)
    else (fields, reply, n + 1)
  }

  method CallOpenAINonStreamingWithParamRetry<V>(up: Service<V>, payload: Payload<V>)
    returns (result: Reply, calls: nat, raw: Payload<V>)
    ensures (raw.fields, result, calls) == Capped(OpenAI, up, payload.fields, 0)
  {
    raw := payload;
    result := up(0, raw.fields);
    calls := 1;
    for attempt := 0 to 2
      invariant calls == attempt + 1 && result == up(attempt, raw.fields)
      invariant Capped(OpenAI, up, payload.fields, 0) == Capped(OpenAI, up, raw.fields, attempt)
    {
      var adjusted, ok := OpenAIPayloadForUnsupportedParams(raw, result.status, result.body);
      if !ok {
        break;
      }
      raw := adjusted;
      result := up(calls, raw.fields);
      calls := calls + 1;
    }
  }

  /** The loop of `callOpenAIViaAnthropicNonStreaming`, after the request is translated. */
  method CallAnthropicWithParamRetry<V>(up: Service<V>, payload: Payload<V>)
    returns (result: Reply, calls: nat, raw: Payload<V>)
    ensures (raw.fields, result, calls) == Capped(Anthropic, up, payload.fields, 0)
  {
    raw := payload;
    result := up(0, raw.fields);
    calls := 1;
    for attempt := 0 to 2
      invariant calls == attempt + 1 && result == up(attempt, raw.fields)
      invariant Capped(Anthropic, up, payload.fields, 0) == Capped(Anthropic, up, raw.fields, attempt)
    {
      var adjusted, ok := AnthropicPayloadForUnsupportedParams(raw, result.status, result.body);
      if !ok {
        break;
      }
      raw := adjusted;
      result := up(calls, raw.fields);
      calls := calls + 1;
    }
  }

  // ---------------------------------------------------------------- when the cap never bites

  lemma {:induction false} CapUnused<V>(dialect: Dialect, up: Service<V>, fields: map<string, V>, n: nat)
    requires n <= 2 && |fields.Keys * Adjustable(dialect)| <= 2 - n
    ensures Capped(dialect, up, fields, n) == Settled(dialect, up, fields, n)
    ensures Capped(dialect, up, fields, n).2 <= 3
    decreases 2 - n
  {
    var reply := up(n, fields);
    if Adjusts(dialect, fields, reply) {
      Shrinks(dialect, fields, reply.body);
      CapUnused(dialect, up, Adjusted(dialect, fields, reply.body), n + 1);
    }
  }

  lemma {:induction false} AtMostTwo(s: set<string>, a: string, b: string)
    requires s <= {a, b}
    ensures |s| <= 2
  {
    var rest := {a, b} - s;
    assert {a, b} == s + rest;
    assert |{a, b}| == |s| + |rest|;
  }

  /** MAIN RESULT. For OpenAI payloads the cap of two is no cap: against every upstream the loop does
      what repeating until nothing can be adjusted would do, in at most three calls. */
  lemma OpenAICapIsExact<V>(up: Service<V>, fields: map<string, V>)
    ensures Capped(OpenAI, up, fields, 0) == Settled(OpenAI, up, fields, 0)
    ensures Capped(OpenAI, up, fields, 0).2 <= 3
  {
    AtMostTwo(fields.Keys * Adjustable(OpenAI), "max_tokens", "temperature");
    CapUnused(OpenAI, up, fields, 0);
  }

  /** All three sampling parameters of an Anthropic request are there. */
  predicate AllSampling<V>(fields: map<string, V>) {
    "temperature" in fields && "top_p" in fields && "top_k" in fields
  }

  lemma AnthropicCapSuffices<V>(up: Service<V>, fields: map<string, V>)
    requires !AllSampling(fields)
    ensures Capped(Anthropic, up, fields, 0) == Settled(Anthropic, up, fields, 0)
    ensures Capped(Anthropic, up, fields, 0).2 <= 3
  {
    var there := fields.Keys * Adjustable(Anthropic);
    if "temperature" !in fields {
      AtMostTwo(there, "top_p", "top_k");
    } else if "top_p" !in fields {
      AtMostTwo(there, "temperature", "top_k");
    } else {
      AtMostTwo(there, "temperature", "top_p");
    }
    CapUnused(Anthropic, up, fields, 0);
  }

  /** An upstream that objects to one parameter at a time. */
  function Objection(n: nat): Reply {
    if n == 0 then Reply(400, "'temperature'") else if n == 1 then Reply(400, "'top_p'")
    else if n == 2 then Reply(400, "'top_k'") else Reply(200, "")
  }

  /** Quotes only at the ends and a different third character: the quoted key is not there. */
  lemma NotQuoted(body: string, key: string)
    requires |body| > 3 && |key| > 2 && body[2] != key[1]
    requires forall i :: 0 < i < |body| - 1 ==> body[i] != '\'' && body[i] != '`'
    requires body[0] != '`' && body[|body| - 1] != '`'
    ensures !Quoted(body, key)
  {
    forall i | 0 <= i <= |body| - |key| - 2
      ensures body[i..][..|key| + 2] != "'" + key + "'" && body[i..][..|key| + 2] != "`" + key + "`"
    {
      assert body[i..][..|key| + 2][0] == body[i] && body[i..][..|key| + 2][2] == body[i + 2];
      assert ("'" + key + "'")[0] == '\'' && ("'" + key + "'")[2] == key[1] && ("`" + key + "`")[0] == '`';
    }
  }

  lemma QuotesItself(key: string)
    ensures Quoted("'" + key + "'", key)
  {
    var body := "'" + key + "'";
    assert body[0..][..|key| + 2] == body;
  }

  lemma Objections()
    ensures Quoted("'temperature'", "temperature")
    ensures !Quoted("'temperature'", "top_p") && !Quoted("'temperature'", "top_k")
    ensures Quoted("'top_p'", "top_p") && !Quoted("'top_p'", "top_k") && Quoted("'top_k'", "top_k")
  {
    assert "'temperature'" == "'" + "temperature" + "'" && "'top_p'" == "'" + "top_p" + "'";
    assert "'top_k'" == "'" + "top_k" + "'";
    QuotesItself("temperature");
    QuotesItself("top_p");
    QuotesItself("top_k");
    NotQuoted("'temperature'", "top_p");
    NotQuoted("'temperature'", "top_k");
    assert !Contains("'top_p'", "'top_k'") && !Contains("'top_p'", "`top_k`") by {
      assert "'top_p'"[0..][..7] == "'top_p'" && "'top_p'"[5] != "'top_k'"[5];
      assert "'top_p'"[0] != "`top_k`"[0];
    }
    assert "'top_k'" == "'" + "top_k" + "'" && "`top_k`" == "`" + "top_k" + "`";
  }

  /** MAIN RESULT. For Anthropic payloads the cap is exact if and only if one of the three sampling
      parameters is missing. */
  lemma AnthropicCapExactly<V>(fields: map<string, V>)
    ensures (forall up: Service<V> :: Capped(Anthropic, up, fields, 0) == Settled(Anthropic, up, fields, 0))
      <==> !AllSampling(fields)
  {
    if AllSampling(fields) {
      var up: Service<V> := (n: nat, f: map<string, V>) => Objection(n);
      CapBites(fields, up);
    } else {
      forall up: Service<V>
        ensures Capped(Anthropic, up, fields, 0) == Settled(Anthropic, up, fields, 0)
      {
        AnthropicCapSuffices(up, fields);
      }
    }
  }

  lemma CapBites<V>(fields: map<string, V>, up: Service<V>)
    requires AllSampling(fields) && forall n: nat, f: map<string, V> :: up(n, f) == Objection(n)
    ensures Capped(Anthropic, up, fields, 0) != Settled(Anthropic, up, fields, 0)
  {
    Objections();
    var f1 := Adjusted(Anthropic, fields, "'temperature'");
    assert "temperature" in Offending(Anthropic, fields, "'temperature'");
    var f2 := Adjusted(Anthropic, f1, "'top_p'");
    assert "top_p" in Offending(Anthropic, f1, "'top_p'");
    assert "top_k" in Offending(Anthropic, f2, "'top_k'");
    assert Capped(Anthropic, up, fields, 0) == Capped(Anthropic, up, f1, 1) == Capped(Anthropic, up, f2, 2);
    assert Settled(Anthropic, up, fields, 0) == Settled(Anthropic, up, f1, 1) == Settled(Anthropic, up, f2, 2);
    CallsGrow(Anthropic, up, Adjusted(Anthropic, f2, "'top_k'"), 3);
  }

  lemma {:induction false} CallsGrow<V>(dialect: Dialect, up: Service<V>, fields: map<string, V>, n: nat)
    ensures Settled(dialect, up, fields, n).2 > n
    decreases |fields.Keys * Adjustable(dialect)|
  {
    var reply := up(n, fields);
    if Adjusts(dialect, fields, reply) {
      Shrinks(dialect, fields, reply.body);
      CallsGrow(dialect, up, Adjusted(dialect, fields, reply.body), n + 1);
    }
  }

  // ---------------------------------------------------------------- translated requests

  /** The parts of an OpenAI request that `openAIRequestToAnthropic` turns into other values. */
  datatype Translated<V> = Translated(
    model: V, maxTokens: V, stream: V, stops: Option<V>, system: Option<V>, messages: V,
    tools: Option<V>, choice: Option<V>)

  function Put<V>(fields: map<string, V>, key: string, value: Option<V>): (r: map<string, V>)
    ensures forall k :: k != key ==> (k in r <==> k in fields) && (k in fields ==> r[k] == fields[k])
    ensures value.Some? ==> key in r && r[key] == value.value
    ensures value.None? ==> r == fields
  {
    if value.Some? then fields[key := value.value] else fields
  }

  /** The Anthropic request: sampling parameters are copied when the client sent them. */
  method OpenAIRequestToAnthropic<V>(raw: map<string, V>, t: Translated<V>) returns (out: Payload<V>)
    ensures fresh(out)
    ensures "top_k" !in out.fields
    ensures forall key :: key in {"temperature", "top_p"} ==>
      (key in out.fields <==> key in raw) && (key in raw ==> out.fields[key] == raw[key])
  {
    out := new Payload(map["model" := t.model, "stream" := t.stream]);
    out.fields := out.fields["max_tokens" := t.maxTokens];
    var keys := ["temperature", "top_p"];
    for i := 0 to |keys|
      invariant fresh(out) && out.fields.Keys <= {"model", "stream", "max_tokens", "temperature", "top_p"}
      invariant forall key :: key in {"temperature", "top_p"} ==>
        (key in out.fields <==> key in raw && key in keys[..i]) && (key in out.fields ==> out.fields[key] == raw[key])
    {
      assert keys[..i + 1] == keys[..i] + [keys[i]];
      if keys[i] in raw {
        out.fields := out.fields[keys[i] := raw[keys[i]]];
      }
    }
    assert keys[0] == "temperature" && keys[1] == "top_p";
    assert "temperature"[1] != "tool_choice"[1] && "top_p"[2] != "tools"[2] && "top_k"[2] != "tools"[2];
    out.fields := Put(out.fields, "stop_sequences", t.stops);
    out.fields := Put(out.fields, "system", t.system);
    out.fields := Put(out.fields, "messages", Some(t.messages));
    out.fields := Put(out.fields, "tools", t.tools);
    out.fields := Put(out.fields, "tool_choice", t.choice);
  }

  /** An OpenAI request served by an Anthropic provider: never more than three calls, and the last
      one is where repeating without a cap would end. */
  method CallOpenAIViaAnthropic<V>(up: Service<V>, raw: map<string, V>, t: Translated<V>)
    returns (result: Reply, calls: nat, ghost first: map<string, V>, sent: Payload<V>)
    ensures "top_k" !in first && calls <= 3
    ensures (sent.fields, result, calls) == Settled(Anthropic, up, first, 0)
  {
    var payload := OpenAIRequestToAnthropic(raw, t);
    first := payload.fields;
    AnthropicCapSuffices(up, first);
    result, calls, sent := CallAnthropicWithParamRetry(up, payload);
  }
}
