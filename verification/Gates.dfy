/** The gate every candidate passes: key policy, budgets and rate limits, asked of the ledger at one
    instant. What the step system calls the checks of a candidate is exactly what is asked here. */
module Gates {
  import opened Text
  import opened Calendar
  import opened Ledger
  import opened Admission

  /** A model as keys name it: by its route, its model id or its own id. */
  datatype Target = Target(route: Route, modelId: string, id: string)

  /** Limits are off unless positive; an empty list allows every model. */
  datatype ApiKey = ApiKey(id: string, allowlist: seq<string>, budget: int, rpm: int, tpm: int)

  datatype BudgetRow = BudgetRow(scope: Scope, limit: int, warnPercent: int, active: bool)

  datatype LimitRow = LimitRow(scope: Scope, rpm: int, tpm: int, active: bool)

  /** The state the checks read. */
  datatype World = World(ledger: seq<Row>, now: nat, budgets: seq<BudgetRow>, limits: seq<LimitRow>)

  predicate KeyAllows(key: ApiKey, t: Target) {
    key.allowlist == []
    || exists i :: 0 <= i < |key.allowlist| && key.allowlist[i] in [t.route.model.route, t.modelId, t.id]
  }

  // ---------------------------------------------------------------- the rules behind the checks

  function MinuteRule(scope: Scope, m: Measure, limit: int): Rule {
    Rule(scope, m, limit, SlidingMinute)
  }

  function MonthRule(scope: Scope, limit: int): Rule {
    Rule(scope, Spend, limit, CalendarMonth)
  }

  function KeyRates(key: ApiKey): seq<Rule> {
    [MinuteRule(ApiKeyScope(key.id), Requests, key.rpm), MinuteRule(ApiKeyScope(key.id), Tokens, key.tpm)]
  }

  /** Budgets are for users and departments. */
  function BudgetRules(budgets: seq<BudgetRow>): seq<Rule> {
    if budgets == [] then []
    else
      var last := budgets[|budgets| - 1];
      BudgetRules(budgets[..|budgets| - 1])
      + if last.active && (last.scope.UserScope? || last.scope.DepartmentScope?)
        then [MonthRule(last.scope, last.limit)] else []
  }

  /** Rate limits are for users, departments, providers and models. */
  function LimitRules(limits: seq<LimitRow>): seq<Rule> {
    if limits == [] then []
    else
      var last := limits[|limits| - 1];
      LimitRules(limits[..|limits| - 1])
      + if last.active && !last.scope.ApiKeyScope?
        then [MinuteRule(last.scope, Requests, last.rpm), MinuteRule(last.scope, Tokens, last.tpm)] else []
  }

  /** Every rule of a request's key, its budgets and the rate limits, in the order they are asked. */
  function RulesOf(key: ApiKey, w: World): seq<Rule> {
    [MonthRule(ApiKeyScope(key.id), key.budget)] + KeyRates(key) + BudgetRules(w.budgets) + LimitRules(w.limits)
  }

  predicate Fails(w: World, q: Request, route: Route, rule: Rule) {
    Applies(rule, q, route) && Total(w.ledger, rule, QuerySpan(rule, w.now)) >= rule.limit
  }

  predicate AnyFails(w: World, q: Request, route: Route, rules: seq<Rule>) {
    exists i :: 0 <= i < |rules| && Fails(w, q, route, rules[i])
  }

  lemma AnyFailsJoin(w: World, q: Request, route: Route, a: seq<Rule>, b: seq<Rule>)
    ensures AnyFails(w, q, route, a + b) == (AnyFails(w, q, route, a) || AnyFails(w, q, route, b))
  {
    if AnyFails(w, q, route, a) {
      var i :| 0 <= i < |a| && Fails(w, q, route, a[i]);
      assert (a + b)[i] == a[i];
    }
    if AnyFails(w, q, route, b) {
      var i :| 0 <= i < |b| && Fails(w, q, route, b[i]);
      assert (a + b)[|a| + i] == b[i];
    }
  }

  // ---------------------------------------------------------------- what the rules ask of the ledger

  predicate LastMinute(w: World, r: Row) {
    r.createdAt >= w.now - 60_000_000_000
  }

  predicate ThisMonth(w: World, r: Row) {
    MonthOf(r.createdAt) == MonthOf(w.now)
  }

  /** Requests and tokens of the last minute, and spend of this month, over the rows that `own` picks. */
  function Requested(w: World, own: Row -> bool): nat {
    Sum(w.ledger, r => own(r) && LastMinute(w, r), _ => 1)
  }

  function TokensUsed(w: World, own: Row -> bool): nat {
    Sum(w.ledger, r => own(r) && LastMinute(w, r), (r: Row) => r.tokens)
  }

  function Spent(w: World, own: Row -> bool): nat {
    Sum(w.ledger, r => own(r) && ThisMonth(w, r), (r: Row) => r.cost)
  }

  /** `own` picks the rows of the rule's scope. */
  ghost predicate Picks(scope: Scope, own: Row -> bool) {
    forall r :: own(r) == RowInScope(r, scope)
  }

  lemma RequestsAsked(w: World, scope: Scope, limit: int, own: Row -> bool)
    requires Picks(scope, own)
    ensures var rule := Rule(scope, Requests, limit, SlidingMinute);
      Total(w.ledger, rule, QuerySpan(rule, w.now)) == Requested(w, own)
  {
    var rule := Rule(scope, Requests, limit, SlidingMinute);
    TotalIsSum(w.ledger, rule, QuerySpan(rule, w.now), r => own(r) && LastMinute(w, r), _ => 1);
  }

  lemma TokensAsked(w: World, scope: Scope, limit: int, own: Row -> bool)
    requires Picks(scope, own)
    ensures var rule := Rule(scope, Tokens, limit, SlidingMinute);
      Total(w.ledger, rule, QuerySpan(rule, w.now)) == TokensUsed(w, own)
  {
    var rule := Rule(scope, Tokens, limit, SlidingMinute);
    TotalIsSum(w.ledger, rule, QuerySpan(rule, w.now), r => own(r) && LastMinute(w, r), (r: Row) => r.tokens);
  }

  lemma SpendAsked(w: World, scope: Scope, limit: int, own: Row -> bool)
    requires Picks(scope, own)
    ensures var rule := Rule(scope, Spend, limit, CalendarMonth);
      Total(w.ledger, rule, QuerySpan(rule, w.now)) == Spent(w, own)
  {
    var rule := Rule(scope, Spend, limit, CalendarMonth);
    var span := QuerySpan(rule, w.now);
    forall r ensures RowWeight(rule, span, r) == if own(r) && ThisMonth(w, r) then r.cost else 0 {
      OneMonth(r.createdAt, MonthOf(w.now));
    }
    TotalIsSum(w.ledger, rule, span, r => own(r) && ThisMonth(w, r), (r: Row) => r.cost);
  }

  /** The minute limits of a key, and its monthly budget, on the ledger itself. */
  predicate KeyRateReached(w: World, key: ApiKey) {
    || (key.rpm > 0 && Requested(w, (r: Row) => r.apiKey == key.id) >= key.rpm)
    || (key.tpm > 0 && TokensUsed(w, (r: Row) => r.apiKey == key.id) >= key.tpm)
  }

  predicate KeyBudgetSpent(w: World, key: ApiKey) {
    key.budget > 0 && Spent(w, (r: Row) => r.apiKey == key.id) >= key.budget
  }

  /** A budget in force for the user or the department of a request is used up. */
  predicate BudgetSpent(w: World, q: Request, b: BudgetRow) {
    && b.active && b.limit > 0
    && match b.scope
       case UserScope(u) => u == q.user && Spent(w, (r: Row) => r.user == u) >= b.limit
       case DepartmentScope(d) => d == q.department && Spent(w, (r: Row) => r.department == d) >= b.limit
       case _ => false
  }

  /** A rate limit in force for a request and its candidate is reached, by the rows `own` picks. */
  predicate Reached(w: World, l: LimitRow, own: Row -> bool) {
    (l.rpm > 0 && Requested(w, own) >= l.rpm) || (l.tpm > 0 && TokensUsed(w, own) >= l.tpm)
  }

  predicate LimitReached(w: World, q: Request, route: Route, l: LimitRow) {
    && l.active
    && match l.scope
       case UserScope(u) => u == q.user && Reached(w, l, (r: Row) => r.user == u)
       case DepartmentScope(d) => d == q.department && Reached(w, l, (r: Row) => r.department == d)
       case ProviderScope(p) => p == route.provider && Reached(w, l, (r: Row) => r.provider == p)
       case ModelScope(m) => m == route.model.route && Reached(w, l, (r: Row) => r.model == m)
       case ApiKeyScope(_) => false
  }

  lemma KeyRulesMean(w: World, q: Request, route: Route, key: ApiKey)
    requires q.apiKey == key.id
    ensures AnyFails(w, q, route, KeyRates(key)) <==> KeyRateReached(w, key)
    ensures Fails(w, q, route, MonthRule(ApiKeyScope(key.id), key.budget))
      <==> IsPriced(route.model) && KeyBudgetSpent(w, key)
  {
    var scope, own, rates := ApiKeyScope(key.id), (r: Row) => r.apiKey == key.id, KeyRates(key);
    RequestsAsked(w, scope, key.rpm, own);
    TokensAsked(w, scope, key.tpm, own);
    SpendAsked(w, scope, key.budget, own);
    assert AnyFails(w, q, route, rates) == (Fails(w, q, route, rates[0]) || Fails(w, q, route, rates[1]));
  }

  lemma BudgetMeans(w: World, q: Request, route: Route, b: BudgetRow)
    ensures (b.active && (b.scope.UserScope? || b.scope.DepartmentScope?)
             && Fails(w, q, route, MonthRule(b.scope, b.limit)))
      <==> IsPriced(route.model) && BudgetSpent(w, q, b)
  {
    match b.scope
    case UserScope(u) => SpendAsked(w, b.scope, b.limit, (r: Row) => r.user == u);
    case DepartmentScope(d) => SpendAsked(w, b.scope, b.limit, (r: Row) => r.department == d);
    case _ =>
  }

  predicate AnySpent(w: World, q: Request, budgets: seq<BudgetRow>) {
    exists i :: 0 <= i < |budgets| && BudgetSpent(w, q, budgets[i])
  }

  lemma AnySpentSnoc(w: World, q: Request, budgets: seq<BudgetRow>, b: BudgetRow)
    ensures AnySpent(w, q, budgets + [b]) <==> AnySpent(w, q, budgets) || BudgetSpent(w, q, b)
  {
    var more := budgets + [b];
    assert more[|budgets|] == b;
    if AnySpent(w, q, budgets) {
      var i :| 0 <= i < |budgets| && BudgetSpent(w, q, budgets[i]);
      assert more[i] == budgets[i];
    }
  }

  lemma {:induction false} BudgetRulesMean(w: World, q: Request, route: Route, budgets: seq<BudgetRow>)
    ensures AnyFails(w, q, route, BudgetRules(budgets)) <==> IsPriced(route.model) && AnySpent(w, q, budgets)
    decreases |budgets|
  {
    if budgets != [] {
      var front, last := budgets[..|budgets| - 1], budgets[|budgets| - 1];
      BudgetRulesMean(w, q, route, front);
      BudgetMeans(w, q, route, last);
      LastOf(budgets);
      AnySpentSnoc(w, q, front, last);
      var rule := MonthRule(last.scope, last.limit);
      AnyFailsJoin(w, q, route, BudgetRules(front), [rule]);
      WithNothing(BudgetRules(front));
      assert AnyFails(w, q, route, [rule]) == Fails(w, q, route, [rule][0]);
    }
  }

  lemma LimitMeans(w: World, q: Request, route: Route, l: LimitRow)
    ensures LimitFails(w, q, route, l) <==> LimitReached(w, q, route, l)
  {
    match l.scope
    case UserScope(u) => MinuteAsked(w, l, (r: Row) => r.user == u);
    case DepartmentScope(d) => MinuteAsked(w, l, (r: Row) => r.department == d);
    case ProviderScope(p) => MinuteAsked(w, l, (r: Row) => r.provider == p);
    case ModelScope(m) => MinuteAsked(w, l, (r: Row) => r.model == m);
    case ApiKeyScope(_) =>
  }

  lemma MinuteAsked(w: World, l: LimitRow, own: Row -> bool)
    requires Picks(l.scope, own)
    ensures var requests, tokens := MinuteRule(l.scope, Requests, l.rpm), MinuteRule(l.scope, Tokens, l.tpm);
      && Total(w.ledger, requests, QuerySpan(requests, w.now)) == Requested(w, own)
      && Total(w.ledger, tokens, QuerySpan(tokens, w.now)) == TokensUsed(w, own)
  {
    RequestsAsked(w, l.scope, l.rpm, own);
    TokensAsked(w, l.scope, l.tpm, own);
  }

  predicate AnyReached(w: World, q: Request, route: Route, limits: seq<LimitRow>) {
    exists i :: 0 <= i < |limits| && LimitReached(w, q, route, limits[i])
  }

  lemma AnyReachedSnoc(w: World, q: Request, route: Route, limits: seq<LimitRow>, l: LimitRow)
    ensures AnyReached(w, q, route, limits + [l]) <==> AnyReached(w, q, route, limits) || LimitReached(w, q, route, l)
  {
    var more := limits + [l];
    assert more[|limits|] == l;
    if AnyReached(w, q, route, limits) {
      var i :| 0 <= i < |limits| && LimitReached(w, q, route, limits[i]);
      assert more[i] == limits[i];
    }
  }

  lemma {:induction false} LimitRulesMean(w: World, q: Request, route: Route, limits: seq<LimitRow>)
    ensures AnyFails(w, q, route, LimitRules(limits)) <==> AnyReached(w, q, route, limits)
    decreases |limits|
  {
    if limits != [] {
      var front, last := limits[..|limits| - 1], limits[|limits| - 1];
      LimitRulesMean(w, q, route, front);
      LimitMeans(w, q, route, last);
      LastOf(limits);
      LimitRulesSnoc(w, q, route, front, last);
      AnyReachedSnoc(w, q, route, front, last);
    }
  }

  // ---------------------------------------------------------------- the checks

  /** Why a request is refused, as an HTTP status. */
  method CheckAPIKeyPolicy(w: World, q: Request, key: ApiKey, t: Target) returns (refused: Option<int>)
    requires q.apiKey == key.id
    ensures refused ==
      if !KeyAllows(key, t) then Some(403)
      else if Fails(w, q, t.route, MonthRule(ApiKeyScope(key.id), key.budget)) then Some(402)
      else if AnyFails(w, q, t.route, KeyRates(key)) then Some(429)
      else None
    ensures refused ==
      if key.allowlist != []
        && t.route.model.route !in key.allowlist && t.modelId !in key.allowlist && t.id !in key.allowlist then Some(403)
      else if IsPriced(t.route.model) && KeyBudgetSpent(w, key) then Some(402)
      else if KeyRateReached(w, key) then Some(429)
      else None
  {
    KeyRulesMean(w, q, t.route, key);
    var allowed := key.allowlist == [];
    for i := 0 to |key.allowlist|
      invariant allowed <==>
        (key.allowlist == []
         || exists j :: 0 <= j < i && key.allowlist[j] in [t.route.model.route, t.modelId, t.id])
    {
      var item := key.allowlist[i];
      if item == t.route.model.route || item == t.modelId || item == t.id {
        allowed := true;
      }
    }
    if !allowed {
      return Some(403);
    }
    if IsPriced(t.route.model) && key.budget > 0 {
      var month := MonthRule(ApiKeyScope(key.id), key.budget);
      if Total(w.ledger, month, QuerySpan(month, w.now)) >= key.budget {
        return Some(402);
      }
    }
    var rates := KeyRates(key);
    if key.rpm > 0 && Total(w.ledger, rates[0], QuerySpan(rates[0], w.now)) >= key.rpm {
      assert Fails(w, q, t.route, rates[0]);
      return Some(429);
    }
    if key.tpm > 0 && Total(w.ledger, rates[1], QuerySpan(rates[1], w.now)) >= key.tpm {
      assert Fails(w, q, t.route, rates[1]);
      return Some(429);
    }
    refused := None;
  }

  datatype BudgetItem = BudgetItem(budget: BudgetRow, spend: nat, blocked: bool, warning: bool)

  predicate Concerns(b: BudgetRow, q: Request, route: Route) {
    b.active && (b.scope.UserScope? || b.scope.DepartmentScope?) && RequestInScope(q, route, b.scope)
  }

  function ItemOf(w: World, b: BudgetRow): BudgetItem {
    var spend := Total(w.ledger, MonthRule(b.scope, b.limit), QuerySpan(MonthRule(b.scope, b.limit), w.now));
    BudgetItem(b, spend, b.limit > 0 && spend >= b.limit, b.limit > 0 && 100 * spend >= b.limit * b.warnPercent)
  }

  function ItemsOf(w: World, q: Request, route: Route, budgets: seq<BudgetRow>): seq<BudgetItem> {
    if budgets == [] then []
    else
      var last := budgets[|budgets| - 1];
      ItemsOf(w, q, route, budgets[..|budgets| - 1]) + if Concerns(last, q, route) then [ItemOf(w, last)] else []
  }

  /** What an item must say: its budget is in force for the user or the department of the request, its
      spend is this month's, it blocks from the limit on and warns from the given percentage of it on. */
  predicate Itemised(w: World, q: Request, item: BudgetItem) {
    var b := item.budget;
    && b.active
    && (match b.scope
        case UserScope(u) => u == q.user && item.spend == Spent(w, (r: Row) => r.user == u)
        case DepartmentScope(d) => d == q.department && item.spend == Spent(w, (r: Row) => r.department == d)
        case _ => false)
    && (item.blocked <==> b.limit > 0 && item.spend >= b.limit)
    && (item.warning <==> b.limit > 0 && 100 * item.spend >= b.limit * b.warnPercent)
  }

  lemma ItemMeans(w: World, q: Request, route: Route, b: BudgetRow)
    ensures Concerns(b, q, route) ==> ItemOf(w, b).budget == b && Itemised(w, q, ItemOf(w, b))
    ensures Concerns(b, q, route) <==>
      b.active && (b.scope == UserScope(q.user) || b.scope == DepartmentScope(q.department))
  {
    match b.scope
    case UserScope(u) => SpendAsked(w, b.scope, b.limit, (r: Row) => r.user == u);
    case DepartmentScope(d) => SpendAsked(w, b.scope, b.limit, (r: Row) => r.department == d);
    case _ =>
  }

  /** Every budget in force for the user or the department of a request, and no other, has an item. */
  lemma {:induction false} ItemsMean(w: World, q: Request, route: Route, budgets: seq<BudgetRow>)
    ensures forall item :: item in ItemsOf(w, q, route, budgets) ==> item.budget in budgets && Itemised(w, q, item)
    ensures forall b :: b in budgets && b.active && b.scope in {UserScope(q.user), DepartmentScope(q.department)} ==>
      ItemOf(w, b).budget == b && ItemOf(w, b) in ItemsOf(w, q, route, budgets)
    decreases |budgets|
  {
    if budgets != [] {
      var front, last := budgets[..|budgets| - 1], budgets[|budgets| - 1];
      LastOf(budgets);
      ItemsMean(w, q, route, front);
      ItemMeans(w, q, route, last);
    }
  }

  predicate AnyWarns(items: seq<BudgetItem>) {
    exists i :: 0 <= i < |items| && items[i].warning
  }

  lemma AnyWarnsSnoc(items: seq<BudgetItem>, item: BudgetItem)
    ensures AnyWarns(items + [item]) <==> AnyWarns(items) || item.warning
  {
    assert (items + [item])[|items|] == item;
    assert forall i :: 0 <= i < |items| ==> (items + [item])[i] == items[i];
  }

  /** `BudgetStatus`: for a priced model every budget that concerns the request, whether one is used
      up and whether one warns; for a model without a price nothing. */
  method BudgetStatus(w: World, q: Request, route: Route)
    returns (blocked: bool, warning: bool, items: seq<BudgetItem>)
    ensures items == if IsPriced(route.model) then ItemsOf(w, q, route, w.budgets) else []
    ensures blocked == AnyFails(w, q, route, BudgetRules(w.budgets))
    ensures blocked <==> IsPriced(route.model) && AnySpent(w, q, w.budgets)
    ensures warning == AnyWarns(items)
    ensures forall item :: item in items ==> item.budget in w.budgets && Itemised(w, q, item)
    ensures IsPriced(route.model) ==>
      forall b :: b in w.budgets && b.active && b.scope in {UserScope(q.user), DepartmentScope(q.department)} ==>
        exists item :: item in items && item.budget == b
  {
    ItemsMean(w, q, route, w.budgets);
    BudgetRulesMean(w, q, route, w.budgets);
    blocked, warning, items := false, false, [];
    if !IsPriced(route.model) {
      FreeModels(w, q, route, w.budgets);
      return;
    }
    for i := 0 to |w.budgets|
      invariant items == ItemsOf(w, q, route, w.budgets[..i])
      invariant blocked == AnyFails(w, q, route, BudgetRules(w.budgets[..i]))
      invariant warning == AnyWarns(items)
    {
      var b := w.budgets[i];
      assert w.budgets[..i + 1] == w.budgets[..i] + [b];
      BudgetRulesSnoc(w, q, route, w.budgets[..i], b);
      if Concerns(b, q, route) {
        var item := ItemOf(w, b);
        if item.blocked {
          blocked := true;
        }
        if item.warning {
          warning := true;
        }
        AnyWarnsSnoc(items, item);
        items := items + [item];
      }
    }
    assert w.budgets[..|w.budgets|] == w.budgets;
  }

  lemma BudgetRulesSnoc(w: World, q: Request, route: Route, budgets: seq<BudgetRow>, b: BudgetRow)
    requires IsPriced(route.model)
    ensures AnyFails(w, q, route, BudgetRules(budgets + [b]))
      == (AnyFails(w, q, route, BudgetRules(budgets)) || (Concerns(b, q, route) && ItemOf(w, b).blocked))
    ensures ItemsOf(w, q, route, budgets + [b])
      == ItemsOf(w, q, route, budgets) + if Concerns(b, q, route) then [ItemOf(w, b)] else []
  {
    assert (budgets + [b])[..|budgets|] == budgets;
    var rule := MonthRule(b.scope, b.limit);
    AnyFailsJoin(w, q, route, BudgetRules(budgets), [rule]);
    AnyFailsJoin(w, q, route, BudgetRules(budgets), []);
    assert AnyFails(w, q, route, [rule]) == Fails(w, q, route, [rule][0]);
  }

  lemma LimitRulesSnoc(w: World, q: Request, route: Route, limits: seq<LimitRow>, l: LimitRow)
    ensures AnyFails(w, q, route, LimitRules(limits + [l]))
      == (AnyFails(w, q, route, LimitRules(limits)) || LimitFails(w, q, route, l))
  {
    assert (limits + [l])[..|limits|] == limits;
    var pair := [MinuteRule(l.scope, Requests, l.rpm), MinuteRule(l.scope, Tokens, l.tpm)];
    AnyFailsJoin(w, q, route, LimitRules(limits), pair);
    AnyFailsJoin(w, q, route, LimitRules(limits), []);
    assert AnyFails(w, q, route, pair) == (Fails(w, q, route, pair[0]) || Fails(w, q, route, pair[1]));
  }

  predicate LimitFails(w: World, q: Request, route: Route, l: LimitRow) {
    l.active && !l.scope.ApiKeyScope?
    && (Fails(w, q, route, MinuteRule(l.scope, Requests, l.rpm))
        || Fails(w, q, route, MinuteRule(l.scope, Tokens, l.tpm)))
  }

  lemma {:induction false} LaterLimitsFail(w: World, q: Request, route: Route, limits: seq<LimitRow>, n: nat)
    requires n <= |limits| && AnyFails(w, q, route, LimitRules(limits[..n]))
    ensures AnyFails(w, q, route, LimitRules(limits))
    decreases |limits| - n
  {
    if n < |limits| {
      assert limits[..n + 1] == limits[..n] + [limits[n]];
      LimitRulesSnoc(w, q, route, limits[..n], limits[n]);
      LaterLimitsFail(w, q, route, limits, n + 1);
    } else {
      assert limits[..n] == limits;
    }
  }

  method CheckRateLimits(w: World, q: Request, route: Route) returns (refused: bool)
    ensures refused == AnyFails(w, q, route, LimitRules(w.limits))
    ensures refused <==> AnyReached(w, q, route, w.limits)
  {
    LimitRulesMean(w, q, route, w.limits);
    for i := 0 to |w.limits|
      invariant !AnyFails(w, q, route, LimitRules(w.limits[..i]))
    {
      var l := w.limits[i];
      assert w.limits[..i + 1] == w.limits[..i] + [l];
      LimitRulesSnoc(w, q, route, w.limits[..i], l);
      if !l.active || l.scope.ApiKeyScope? || !RequestInScope(q, route, l.scope) {
        continue;
      }
      if l.rpm <= 0 && l.tpm <= 0 {
        continue;
      }
      var requests, tokens := MinuteRule(l.scope, Requests, l.rpm), MinuteRule(l.scope, Tokens, l.tpm);
      if l.rpm > 0 && Total(w.ledger, requests, QuerySpan(requests, w.now)) >= l.rpm {
        LaterLimitsFail(w, q, route, w.limits, i + 1);
        return true;
      }
      if l.tpm > 0 && Total(w.ledger, tokens, QuerySpan(tokens, w.now)) >= l.tpm {
        LaterLimitsFail(w, q, route, w.limits, i + 1);
        return true;
      }
    }
    assert w.limits[..|w.limits|] == w.limits;
    refused := false;
  }

  /** The key allows the model and no rule fails. */
  predicate Passes(w: World, q: Request, key: ApiKey, t: Target) {
    KeyAllows(key, t) && !AnyFails(w, q, t.route, RulesOf(key, w))
  }

  /** A candidate is admitted exactly when the key allows the model and no rule fails; a refusal is 403
      for the key, 402 for money, 429 for a rate, and the first in that order of asking. */
  method CheckRouteAdmission(w: World, q: Request, key: ApiKey, t: Target) returns (refused: Option<int>)
    requires q.apiKey == key.id
    ensures refused.None? <==> Passes(w, q, key, t)
    ensures refused ==
      if !KeyAllows(key, t) then Some(403)
      else if Fails(w, q, t.route, MonthRule(ApiKeyScope(key.id), key.budget)) then Some(402)
      else if AnyFails(w, q, t.route, KeyRates(key)) then Some(429)
      else if AnyFails(w, q, t.route, BudgetRules(w.budgets)) then Some(402)
      else if AnyFails(w, q, t.route, LimitRules(w.limits)) then Some(429)
      else None
    ensures refused.None? <==>
      && (key.allowlist == []
          || t.route.model.route in key.allowlist || t.modelId in key.allowlist || t.id in key.allowlist)
      && !(IsPriced(t.route.model) && KeyBudgetSpent(w, key))
      && !KeyRateReached(w, key)
      && !(IsPriced(t.route.model) && AnySpent(w, q, w.budgets))
      && !AnyReached(w, q, t.route, w.limits)
  {
    AllRules(w, q, key, t.route);
    refused := CheckAPIKeyPolicy(w, q, key, t);
    if refused.Some? {
      return;
    }
    var blocked, _, _ := BudgetStatus(w, q, t.route);
    if blocked {
      return Some(402);
    }
    var limited := CheckRateLimits(w, q, t.route);
    if limited {
      return Some(429);
    }
  }

  lemma AllRules(w: World, q: Request, key: ApiKey, route: Route)
    ensures AnyFails(w, q, route, RulesOf(key, w))
      == (Fails(w, q, route, MonthRule(ApiKeyScope(key.id), key.budget)) || AnyFails(w, q, route, KeyRates(key))
          || AnyFails(w, q, route, BudgetRules(w.budgets)) || AnyFails(w, q, route, LimitRules(w.limits)))
  {
    var month := [MonthRule(ApiKeyScope(key.id), key.budget)];
    AnyFailsJoin(w, q, route, month, KeyRates(key));
    AnyFailsJoin(w, q, route, month + KeyRates(key), BudgetRules(w.budgets));
    AnyFailsJoin(w, q, route, month + KeyRates(key) + BudgetRules(w.budgets), LimitRules(w.limits));
    assert AnyFails(w, q, route, month) == Fails(w, q, route, month[0]);
  }

  /** Spend is not asked about for a model without a price. */
  lemma {:induction false} FreeModels(w: World, q: Request, route: Route, budgets: seq<BudgetRow>)
    requires !IsPriced(route.model)
    ensures !AnyFails(w, q, route, BudgetRules(budgets))
    decreases |budgets|
  {
    if budgets != [] {
      FreeModels(w, q, route, budgets[..|budgets| - 1]);
      var last := budgets[|budgets| - 1];
      AnyFailsJoin(w, q, route, BudgetRules(budgets[..|budgets| - 1]), [MonthRule(last.scope, last.limit)]);
    }
  }

  // ---------------------------------------------------------------- the step system makes these checks

  /** The checks made one after the other, without another request's step in between. */
  function CheckOn(rules: seq<Rule>, w: World, fl: Flight): Flight
    requires fl.phase.Checking? && fl.phase.idx < |fl.request.plan|
    decreases |fl.phase.remaining|
  {
    if fl.phase.remaining == [] then fl
    else
      var next := After(rules, w.now, w.ledger, fl, Check).value;
      if next.phase.Checking? then CheckOn(rules, w, next) else next
  }

  predicate AllBelow(w: World, rules: seq<Rule>) {
    forall i :: 0 <= i < |rules| ==> Total(w.ledger, rules[i], QuerySpan(rules[i], w.now)) < rules[i].limit
  }

  lemma {:induction false} ChecksDecide(rules: seq<Rule>, w: World, fl: Flight)
    requires fl.phase.Checking? && fl.phase.idx < |fl.request.plan| && fl.phase.clock == w.now
    ensures CheckOn(rules, w, fl).phase.Checking? <==> AllBelow(w, fl.phase.remaining)
    ensures CheckOn(rules, w, fl).phase.Checking? ==> CheckOn(rules, w, fl).phase.remaining == []
    decreases |fl.phase.remaining|
  {
    var remaining := fl.phase.remaining;
    if remaining != [] {
      var next := After(rules, w.now, w.ledger, fl, Check).value;
      if next.phase.Checking? {
        ChecksDecide(rules, w, next);
        assert AllBelow(w, remaining) <==> AllBelow(w, remaining[1..]) by {
          if AllBelow(w, remaining[1..]) {
            forall i | 0 <= i < |remaining|
              ensures Total(w.ledger, remaining[i], QuerySpan(remaining[i], w.now)) < remaining[i].limit
            {
              assert i > 0 ==> remaining[i] == remaining[1..][i - 1];
            }
          }
        }
      }
    }
  }

  lemma BelowSnoc(w: World, rules: seq<Rule>, rule: Rule)
    ensures AllBelow(w, rules + [rule])
      <==> AllBelow(w, rules) && Total(w.ledger, rule, QuerySpan(rule, w.now)) < rule.limit
  {
    var more := rules + [rule];
    assert more[|rules|] == rule;
    assert forall i :: 0 <= i < |rules| ==> more[i] == rules[i];
  }

  lemma {:induction false} ChecksAreRules(w: World, q: Request, route: Route, rules: seq<Rule>)
    ensures AllBelow(w, ChecksFor(rules, q, route)) <==> !AnyFails(w, q, route, rules)
    decreases |rules|
  {
    if rules != [] {
      var front, last := rules[..|rules| - 1], rules[|rules| - 1];
      ChecksAreRules(w, q, route, front);
      AnyFailsJoin(w, q, route, front, [last]);
      assert rules == front + [last];
      assert AnyFails(w, q, route, [last]) == Fails(w, q, route, [last][0]);
      BelowSnoc(w, ChecksFor(front, q, route), last);
      assert ChecksFor(front, q, route) + [] == ChecksFor(front, q, route);
    }
  }

  /** A request looks at its candidate: past it if the key may not use the model, else through its
      checks without another request's step in between. */
  function Tried(w: World, q: Request, key: ApiKey, t: Target, idx: nat): Flight
    requires idx < |q.plan|
  {
    var rules, ready := RulesOf(key, w), Flight(q, Ready(idx), 0);
    if KeyAllows(key, t) then CheckOn(rules, w, After(rules, w.now, w.ledger, ready, Consider).value)
    else After(rules, w.now, w.ledger, ready, PassOver).value
  }

  /** MAIN RESULT. A request that looks at a candidate without interruption has passed all its checks
      exactly when the gate lets it pass. */
  lemma StepsAreTheGate(w: World, q: Request, key: ApiKey, t: Target, idx: nat)
    requires idx < |q.plan| && t.route == q.plan[idx]
    ensures var tried := Tried(w, q, key, t, idx);
      && (tried.phase.Checking? <==> Passes(w, q, key, t))
      && (tried.phase.Checking? ==> tried.phase.remaining == [])
  {
    var rules := RulesOf(key, w);
    var start := Flight(q, Checking(idx, ChecksFor(rules, q, q.plan[idx]), w.now), 0);
    ChecksDecide(rules, w, start);
    ChecksAreRules(w, q, q.plan[idx], rules);
  }
}
