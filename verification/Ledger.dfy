/** The usage ledger: its rows, prices, attempt ids and the sums the admission checks ask for. */
module Ledger {
  import opened Text
  import opened Calendar

  /** Prices in micro-dollars per million tokens. */
  datatype Model = Model(route: string, inputPrice: nat, outputPrice: nat)

  predicate IsPriced(m: Model) {
    m.inputPrice > 0 || m.outputPrice > 0
  }

  /** Cost in micro-dollars, rounded half up. */
  function Cost(inputTokens: nat, outputTokens: nat, m: Model): nat {
    (inputTokens * m.inputPrice + outputTokens * m.outputPrice + 500_000) / 1_000_000
  }

  /** `cost` is the price of the tokens, input and output each at their own, to within half a
      micro-dollar. */
  predicate IsPrice(cost: nat, inputTokens: nat, outputTokens: nat, m: Model) {
    -500_000 < 1_000_000 * cost - (inputTokens * m.inputPrice + outputTokens * m.outputPrice) <= 500_000
  }

  /** MAIN RESULT. The cost is the price, and no other whole number of micro-dollars is. */
  lemma CostIsPrice(inputTokens: nat, outputTokens: nat, m: Model, cost: nat)
    ensures IsPrice(cost, inputTokens, outputTokens, m) <==> cost == Cost(inputTokens, outputTokens, m)
  {
    Nearest(inputTokens * m.inputPrice + outputTokens * m.outputPrice, cost);
  }

  lemma Nearest(exact: nat, n: nat)
    ensures -500_000 < 1_000_000 * n - exact <= 500_000 <==> n == (exact + 500_000) / 1_000_000
  {
  }

  lemma UnpricedIsFree(inputTokens: nat, outputTokens: nat, m: Model)
    requires !IsPriced(m)
    ensures Cost(inputTokens, outputTokens, m) == 0
  {
    assert inputTokens * m.inputPrice == 0 && outputTokens * m.outputPrice == 0;
  }

  /** A model has a price exactly if some use of it costs something. */
  lemma PricedExactly(m: Model)
    ensures IsPriced(m) <==> exists inputTokens: nat, outputTokens: nat :: Cost(inputTokens, outputTokens, m) > 0
  {
    if IsPriced(m) {
      CostIsPrice(1_000_000, 1_000_000, m, Cost(1_000_000, 1_000_000, m));
      assert Cost(1_000_000, 1_000_000, m) > 0;
    } else {
      forall inputTokens: nat, outputTokens: nat ensures Cost(inputTokens, outputTokens, m) == 0 {
        UnpricedIsFree(inputTokens, outputTokens, m);
      }
    }
  }

  datatype Row = Row(
    requestId: string, user: string, department: string, apiKey: string, provider: string,
    model: string, tokens: nat, cost: nat, createdAt: nat)

  datatype Scope =
    | UserScope(user: string)
    | DepartmentScope(department: string)
    | ApiKeyScope(apiKey: string)
    | ProviderScope(provider: string)
    | ModelScope(model: string)

  predicate RowInScope(r: Row, scope: Scope) {
    match scope
    case UserScope(u) => r.user == u
    case DepartmentScope(d) => r.department == d
    case ApiKeyScope(k) => r.apiKey == k
    case ProviderScope(p) => r.provider == p
    case ModelScope(m) => r.model == m
  }

  datatype Measure = Requests | Tokens | Spend

  function Weight(m: Measure, r: Row): nat {
    match m
    case Requests => 1
    case Tokens => r.tokens
    case Spend => r.cost
  }

  datatype Period = SlidingMinute | CalendarMonth

  /** One limit: of an API key, a budget or a rate limit. It is off unless positive. */
  datatype Rule = Rule(scope: Scope, measure: Measure, limit: int, period: Period)

  /** A stretch of time, open-ended or closed at both ends. */
  datatype Span = Since(from: int) | Between(from: int, upto: int)

  predicate InSpan(t: int, s: Span) {
    s.from <= t && (s.Between? ==> t <= s.upto)
  }

  /** The rows a check of `rule` looks at when its clock reads `clock`. */
  function QuerySpan(rule: Rule, clock: nat): Span {
    match rule.period
    case SlidingMinute => Since(clock - MINUTE)
    case CalendarMonth => Between(MonthStart(MonthOf(clock)), MonthStart(MonthOf(clock) + 1) - 1)
  }

  /** The windows a rule is meant to bound: every stretch of 60 seconds, or every month. */
  ghost predicate RuleWindow(rule: Rule, w: Span) {
    w.Between? &&
    match rule.period
    case SlidingMinute => w.upto == w.from + MINUTE
    case CalendarMonth => exists k: nat :: w.from == MonthStart(k) && w.upto == MonthStart(k + 1) - 1
  }

  function RowWeight(rule: Rule, w: Span, r: Row): nat {
    if RowInScope(r, rule.scope) && InSpan(r.createdAt, w) then Weight(rule.measure, r) else 0
  }

  /** The total of a rule's measure over the rows of its scope in a stretch of time. */
  function Total(ledger: seq<Row>, rule: Rule, w: Span): nat {
    if ledger == [] then 0
    else Total(ledger[..|ledger| - 1], rule, w) + RowWeight(rule, w, ledger[|ledger| - 1])
  }

  /** The sum of `what` over the rows that `which` picks. */
  function Sum(ledger: seq<Row>, which: Row -> bool, what: Row -> nat): nat {
    if ledger == [] then 0
    else
      var last := ledger[|ledger| - 1];
      Sum(ledger[..|ledger| - 1], which, what) + if which(last) then what(last) else 0
  }

  lemma {:induction false} TotalIsSum(ledger: seq<Row>, rule: Rule, w: Span, which: Row -> bool, what: Row -> nat)
    requires forall r :: RowWeight(rule, w, r) == if which(r) then what(r) else 0
    ensures Total(ledger, rule, w) == Sum(ledger, which, what)
    decreases |ledger|
  {
    if ledger != [] {
      TotalIsSum(ledger[..|ledger| - 1], rule, w, which, what);
    }
  }

  lemma TotalSnoc(ledger: seq<Row>, r: Row, rule: Rule, w: Span)
    ensures Total(ledger + [r], rule, w) == Total(ledger, rule, w) + RowWeight(rule, w, r)
  {
    assert (ledger + [r])[..|ledger|] == ledger;
  }

  lemma {:induction false} WiderTotal(ledger: seq<Row>, rule: Rule, w: Span, v: Span)
    requires forall t :: InSpan(t, w) ==> InSpan(t, v)
    ensures Total(ledger, rule, w) <= Total(ledger, rule, v)
    decreases |ledger|
  {
    if ledger != [] {
      WiderTotal(ledger[..|ledger| - 1], rule, w, v);
    }
  }

  lemma {:induction false} NothingYet(ledger: seq<Row>, rule: Rule, w: Span)
    requires forall r :: r in ledger ==> r.createdAt < w.from
    ensures Total(ledger, rule, w) == 0
    decreases |ledger|
  {
    if ledger != [] {
      assert ledger[|ledger| - 1] in ledger;
      NothingYet(ledger[..|ledger| - 1], rule, w);
    }
  }

  /** A check whose clock lies in a window of its rule looks at all of that window's past. */
  lemma CheckCoversWindow(rule: Rule, w: Span, clock: nat)
    requires RuleWindow(rule, w) && InSpan(clock, w)
    ensures forall t :: InSpan(t, w) ==> InSpan(t, QuerySpan(rule, clock))
  {
    if rule.period.CalendarMonth? {
      var k: nat :| w.from == MonthStart(k) && w.upto == MonthStart(k + 1) - 1;
      OneMonth(clock, k);
    }
  }

  // ---------------------------------------------------------------- attempt ids

  /** The id of the `attempt`-th upstream attempt of a request. */
  function AttemptId(requestId: string, attempt: nat): string {
    if attempt <= 1 then requestId else requestId + "-attempt-" + NatText(attempt)
  }

  /** The first attempt goes by the base id; any other by the base id, a fixed text and its number in
      decimal, without leading zeros. */
  lemma AttemptIdReads(requestId: string, attempt: nat)
    requires attempt >= 1
    ensures attempt == 1 ==> AttemptId(requestId, attempt) == requestId
    ensures attempt > 1 ==>
      var numeral := AttemptId(requestId, attempt)[|requestId| + 9..];
      AttemptId(requestId, attempt) == requestId + "-attempt-" + numeral
      && AllDigits(numeral) && NumeralValue(numeral) == attempt && numeral[0] != '0'
  {
    if attempt > 1 {
      assert AttemptId(requestId, attempt)[|requestId| + 9..] == NatText(attempt);
      NatTextReads(attempt);
    }
  }

  /** Base ids all have one length (a prefix and 22 characters of base64), so attempt ids never
      collide, within a request or across requests. */
  lemma AttemptIdInjective(a: string, m: nat, b: string, n: nat)
    requires |a| == |b| && m >= 1 && n >= 1
    requires AttemptId(a, m) == AttemptId(b, n)
    ensures a == b && m == n
  {
    var x, y := AttemptId(a, m), AttemptId(b, n);
    assert a == x[..|a|] && b == y[..|b|];
    if m > 1 && n > 1 {
      var i := |a| + |"-attempt-"|;
      assert NatText(m) == x[i..] && NatText(n) == y[i..];
      NatTextInjective(m, n);
    }
  }

  predicate HasId(ledger: seq<Row>, id: string) {
    exists r :: r in ledger && r.requestId == id
  }

  /** `INSERT ... ON CONFLICT DO NOTHING`, the request id being unique. */
  function Insert(ledger: seq<Row>, r: Row): seq<Row> {
    if HasId(ledger, r.requestId) then ledger else ledger + [r]
  }
}
