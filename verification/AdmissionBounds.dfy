/** How far concurrent requests can overshoot a limit that is checked before it is spent. */
module AdmissionBounds {
  import opened Calendar
  import opened Ledger
  import opened Admission

  /** The flight is past its first step with a candidate that `rule` applies to. */
  predicate InFlight(rule: Rule, fl: Flight) {
    (fl.phase.Checking? || fl.phase.Calling? || fl.phase.Recording?)
    && fl.phase.idx < |fl.request.plan|
    && Applies(rule, fl.request, fl.request.plan[fl.phase.idx])
  }

  function CountInFlight(rule: Rule, flights: seq<Flight>): nat {
    if flights == [] then 0
    else
      CountInFlight(rule, flights[..|flights| - 1])
      + if InFlight(rule, flights[|flights| - 1]) then 1 else 0
  }

  /** How many rows the flight may still add to window `w` without passing a check of `rule`
      whose clock lies in the window. */
  function Credit(rule: Rule, w: Span, now: nat, fl: Flight): nat
    requires w.Between?
  {
    if !InFlight(rule, fl) then 0
    else
      match fl.phase
      case Checking(_, remaining, clock) =>
        if now > w.upto || (rule in remaining && clock >= w.from) then 0 else Quota(fl.request)
      case Calling(_, left) => if now > w.upto then 0 else left
      case Recording(_, left, row, _) =>
        (if InSpan(row.createdAt, w) then 1 else 0) + (if now > w.upto then 0 else left)
      case _ => 0
  }

  function Credits(rule: Rule, w: Span, now: nat, flights: seq<Flight>): nat
    requires w.Between?
  {
    if flights == [] then 0
    else
      Credits(rule, w, now, flights[..|flights| - 1]) + Credit(rule, w, now, flights[|flights| - 1])
  }

  /** Replacing one flight changes a sum by the difference of two terms. */
  lemma {:induction false} CreditsUpdate(rule: Rule, w: Span, now: nat, flights: seq<Flight>, f: nat,
                                         fl: Flight)
    requires w.Between? && f < |flights|
    ensures Credits(rule, w, now, flights[f := fl]) + Credit(rule, w, now, flights[f])
         == Credits(rule, w, now, flights) + Credit(rule, w, now, fl)
    decreases |flights|
  {
    var n := |flights| - 1;
    if f == n {
      assert flights[f := fl][..n] == flights[..n];
    } else {
      CreditsUpdate(rule, w, now, flights[..n], f, fl);
      assert flights[f := fl][..n] == flights[..n][f := fl];
    }
  }

  lemma {:induction false} CreditsAge(rule: Rule, w: Span, now: nat, later: nat, flights: seq<Flight>)
    requires w.Between? && now <= later
    ensures Credits(rule, w, later, flights) <= Credits(rule, w, now, flights)
    decreases |flights|
  {
    if flights != [] {
      CreditsAge(rule, w, now, later, flights[..|flights| - 1]);
    }
  }

  /** What is true of every flight at every moment. */
  ghost predicate FlightOk(fl: Flight, now: nat) {
    match fl.phase
    case Checking(i, _, clock) => i < |fl.request.plan| && clock <= now
    case Calling(i, left) => i < |fl.request.plan| && left <= Quota(fl.request)
    case Recording(i, left, row, _) =>
      && i < |fl.request.plan| && left + 1 <= Quota(fl.request)
      && row.createdAt <= now
      && (forall scope :: RowInScope(row, scope) <==> RequestInScope(fl.request, fl.request.plan[i], scope))
      && (!IsPriced(fl.request.plan[i].model) ==> row.cost == 0)
    case _ => true
  }

  ghost predicate SystemOk(s: System) {
    && (forall fl :: fl in s.flights ==> FlightOk(fl, s.now))
    && (forall r :: r in s.ledger ==> r.createdAt <= s.now)
  }

  /** No flight is worth more than the most retries allow, and idle ones nothing. */
  lemma {:induction false} CreditsBounded(rule: Rule, w: Span, now: nat, flights: seq<Flight>, quota: nat)
    requires w.Between?
    requires forall fl :: fl in flights ==> FlightOk(fl, now)
    requires forall fl :: fl in flights && InFlight(rule, fl) ==> Quota(fl.request) <= quota
    ensures Credits(rule, w, now, flights) <= CountInFlight(rule, flights) * quota
    decreases |flights|
  {
    if flights != [] {
      var front, last := flights[..|flights| - 1], flights[|flights| - 1];
      assert last in flights;
      CreditsBounded(rule, w, now, front, quota);
      assert Credit(rule, w, now, last) <= if InFlight(rule, last) then quota else 0;
      OneMoreFlight(Credits(rule, w, now, front), CountInFlight(rule, front), Credit(rule, w, now, last),
        if InFlight(rule, last) then 1 else 0, quota);
    }
  }

  lemma OneMoreFlight(credits: nat, count: nat, credit: nat, one: nat, quota: nat)
    requires credits <= count * quota && one <= 1 && credit <= if one == 1 then quota else 0
    ensures credits + credit <= (count + one) * quota
  {
    assert (count + 1) * quota == count * quota + quota;
  }

  lemma NewRowOk(q: Request, i: nat, attempt: nat, m: Move, now: nat)
    requires i < |q.plan| && m.Stamp?
    ensures var row := NewRow(q, q.plan[i], attempt, m, now);
      && (forall scope :: RowInScope(row, scope) <==> RequestInScope(q, q.plan[i], scope))
      && (!IsPriced(q.plan[i].model) ==> row.cost == 0)
  {
    if !IsPriced(q.plan[i].model) {
      UnpricedIsFree(m.inputTokens, m.outputTokens, q.plan[i].model);
    }
  }

  lemma AfterOk(rules: seq<Rule>, now: nat, ledger: seq<Row>, fl: Flight, m: Move)
    requires FlightOk(fl, now) && After(rules, now, ledger, fl, m).Some?
    ensures FlightOk(After(rules, now, ledger, fl, m).value, now)
  {
    if fl.phase.Calling? {
      NewRowOk(fl.request, fl.phase.idx, fl.attempts + 1, m, now);
    }
  }

  lemma NextOk(rules: seq<Rule>, idLength: nat, s: System, step: Step)
    requires SystemOk(s) && Next(rules, idLength, s, step).Some?
    ensures SystemOk(Next(rules, idLength, s, step).value)
  {
    var t := Next(rules, idLength, s, step).value;
    match step
    case Tick(_) =>
    case Arrive(q) =>
    case Fly(f, m) =>
      assert s.flights[f] in s.flights;
      AfterOk(rules, s.now, s.ledger, s.flights[f], m);
      forall fl | fl in t.flights ensures FlightOk(fl, t.now) {
        assert fl == t.flights[f] || fl in s.flights;
      }
  }

  // ---------------------------------------------------------------- one rule, one window

  /** What a rule that is checked first and spent later still guarantees for a window. */
  function Bound(rule: Rule, cap: nat, most: nat): int {
    rule.limit - 1 + most * cap
  }

  ghost predicate Bounded(rule: Rule, w: Span, cap: nat, most: nat, s: System)
    requires w.Between?
  {
    Total(s.ledger, rule, w) + most * Credits(rule, w, s.now, s.flights) <= Bound(rule, cap, most)
  }

  /** At most `cap` attempts are outstanding, and none weighs more than `most`. */
  ghost predicate Modest(rule: Rule, cap: nat, most: nat, s: System) {
    && (forall w: Span :: w.Between? ==> Credits(rule, w, s.now, s.flights) <= cap)
    && (forall fl :: fl in s.flights && fl.phase.Recording? && InFlight(rule, fl) ==>
         Weight(rule.measure, fl.phase.row) <= most)
  }

  lemma Times(most: nat, a: nat, b: nat)
    requires a <= b
    ensures most * a <= most * b
  {
  }

  /** A move either leaves the flight's credit no higher, or it is a check of `rule` that has just
      passed, or a clock read before the window opens. */
  lemma CreditAfterMove(rules: seq<Rule>, rule: Rule, w: Span, now: nat, ledger: seq<Row>,
                        fl: Flight, m: Move)
    requires w.Between? && rule in rules && FlightOk(fl, now)
    requires After(rules, now, ledger, fl, m).Some? && !fl.phase.Recording?
    ensures var fl' := After(rules, now, ledger, fl, m).value;
      || Credit(rule, w, now, fl') <= Credit(rule, w, now, fl)
      || now < w.from
      || (fl.phase.Checking? && w.from <= fl.phase.clock <= now <= w.upto
          && Total(ledger, rule, QuerySpan(rule, fl.phase.clock)) < rule.limit)
  {
    if fl.phase.Ready? && m.Consider? && fl.phase.idx < |fl.request.plan| {
      if Applies(rule, fl.request, fl.request.plan[fl.phase.idx]) {
        ApplicableIsChecked(rules, rule, fl.request, fl.request.plan[fl.phase.idx]);
      }
    }
  }

  lemma {:induction false} ApplicableIsChecked(rules: seq<Rule>, rule: Rule, q: Request, route: Route)
    requires rule in rules && Applies(rule, q, route)
    ensures rule in ChecksFor(rules, q, route)
    decreases |rules|
  {
    if rules[|rules| - 1] != rule {
      ApplicableIsChecked(rules[..|rules| - 1], rule, q, route);
    }
  }

  /** A bound that holds because nothing was spent, or because a check has just passed. */
  lemma FreshBound(rule: Rule, w: Span, cap: nat, most: nat, s: System)
    requires w.Between? && rule.limit > 0
    requires Total(s.ledger, rule, w) < rule.limit && Credits(rule, w, s.now, s.flights) <= cap
    ensures Bounded(rule, w, cap, most, s)
  {
    Times(most, Credits(rule, w, s.now, s.flights), cap);
  }

  lemma QuietMoveBounded(rules: seq<Rule>, idLength: nat, rule: Rule, w: Span, cap: nat, most: nat,
                         s: System, f: nat, m: Move)
    requires rule in rules && rule.limit > 0 && RuleWindow(rule, w)
    requires SystemOk(s) && Bounded(rule, w, cap, most, s)
    requires f < |s.flights| && !s.flights[f].phase.Recording?
    requires After(rules, s.now, s.ledger, s.flights[f], m).Some?
    requires Modest(rule, cap, most, Next(rules, idLength, s, Fly(f, m)).value)
    ensures Bounded(rule, w, cap, most, Next(rules, idLength, s, Fly(f, m)).value)
  {
    var fl := s.flights[f];
    assert fl in s.flights;
    var fl' := After(rules, s.now, s.ledger, fl, m).value;
    var t := Next(rules, idLength, s, Fly(f, m)).value;
    CreditAfterMove(rules, rule, w, s.now, s.ledger, fl, m);
    CreditsUpdate(rule, w, s.now, s.flights, f, fl');
    if Credit(rule, w, s.now, fl') <= Credit(rule, w, s.now, fl) {
      Times(most, Credits(rule, w, s.now, t.flights), Credits(rule, w, s.now, s.flights));
    } else {
      if s.now < w.from {
        NothingYet(s.ledger, rule, w);
      } else {
        CheckCoversWindow(rule, w, fl.phase.clock);
        WiderTotal(s.ledger, rule, w, QuerySpan(rule, fl.phase.clock));
      }
      FreshBound(rule, w, cap, most, t);
    }
  }

  /** The row of an attempt weighs nothing for rules its candidate was not checked against. */
  lemma RecordedWeight(rule: Rule, w: Span, now: nat, fl: Flight, most: nat)
    requires w.Between? && rule.limit > 0 && fl.phase.Recording? && FlightOk(fl, now)
    requires InFlight(rule, fl) ==> Weight(rule.measure, fl.phase.row) <= most
    ensures RowWeight(rule, w, fl.phase.row)
         <= if InFlight(rule, fl) && InSpan(fl.phase.row.createdAt, w) then most else 0
  {
    assert RowInScope(fl.phase.row, rule.scope)
       <==> RequestInScope(fl.request, fl.request.plan[fl.phase.idx], rule.scope);
  }

  /** Recording a row in the window uses up one attempt of the flight's credit. */
  lemma CreditSpent(rules: seq<Rule>, rule: Rule, w: Span, now: nat, ledger: seq<Row>, fl: Flight)
    requires w.Between? && fl.phase.Recording? && FlightOk(fl, now)
    ensures After(rules, now, ledger, fl, Record).Some?
    ensures var spent := if InFlight(rule, fl) && InSpan(fl.phase.row.createdAt, w) then 1 else 0;
      Credit(rule, w, now, After(rules, now, ledger, fl, Record).value) + spent <= Credit(rule, w, now, fl)
  {
  }

  lemma RecordBounded(rules: seq<Rule>, idLength: nat, rule: Rule, w: Span, cap: nat, most: nat,
                      s: System, f: nat)
    requires rule.limit > 0 && w.Between?
    requires SystemOk(s) && Bounded(rule, w, cap, most, s) && Modest(rule, cap, most, s)
    requires f < |s.flights| && s.flights[f].phase.Recording?
    ensures Bounded(rule, w, cap, most, Next(rules, idLength, s, Fly(f, Record)).value)
  {
    var fl := s.flights[f];
    assert fl in s.flights;
    var row := fl.phase.row;
    var fl' := After(rules, s.now, s.ledger, fl, Record).value;
    var t := Next(rules, idLength, s, Fly(f, Record)).value;
    var spent := if InFlight(rule, fl) && InSpan(row.createdAt, w) then 1 else 0;
    RecordedWeight(rule, w, s.now, fl, most);
    TotalSnoc(s.ledger, row, rule, w);
    assert Total(t.ledger, rule, w) <= Total(s.ledger, rule, w) + most * spent;
    CreditSpent(rules, rule, w, s.now, s.ledger, fl);
    CreditsUpdate(rule, w, s.now, s.flights, f, fl');
    Settles(most, Credits(rule, w, s.now, s.flights), Credits(rule, w, s.now, t.flights), spent,
            Total(s.ledger, rule, w), Total(t.ledger, rule, w), Bound(rule, cap, most));
  }

  /** Credit that is spent moves from one side to the other. */
  lemma Settles(most: nat, before: nat, after: nat, spent: nat, total: nat, newTotal: nat, bound: int)
    requires after + spent <= before && newTotal <= total + most * spent && total + most * before <= bound
    ensures newTotal + most * after <= bound
  {
    Times(most, after + spent, before);
    assert most * (after + spent) == most * after + most * spent;
  }

  lemma NextBounded(rules: seq<Rule>, idLength: nat, rule: Rule, w: Span, cap: nat, most: nat,
                    s: System, step: Step)
    requires rule in rules && rule.limit > 0 && RuleWindow(rule, w)
    requires SystemOk(s) && Bounded(rule, w, cap, most, s) && Modest(rule, cap, most, s)
    requires Next(rules, idLength, s, step).Some?
    requires Modest(rule, cap, most, Next(rules, idLength, s, step).value)
    ensures Bounded(rule, w, cap, most, Next(rules, idLength, s, step).value)
  {
    var t := Next(rules, idLength, s, step).value;
    match step
    case Tick(d) =>
      CreditsAge(rule, w, s.now, s.now + d, s.flights);
      Times(most, Credits(rule, w, t.now, t.flights), Credits(rule, w, s.now, s.flights));
    case Arrive(q) =>
      assert t.flights[..|s.flights|] == s.flights;
    case Fly(f, m) =>
      if s.flights[f].phase.Recording? {
        RecordBounded(rules, idLength, rule, w, cap, most, s, f);
      } else {
        QuietMoveBounded(rules, idLength, rule, w, cap, most, s, f, m);
      }
  }

  // ---------------------------------------------------------------- whole runs

  /** At most `k` requests are in flight with a candidate the rule applies to, each allowed at
      most `quota` attempts, and no attempt of theirs weighs more than `most`. */
  ghost predicate LoadAt(rule: Rule, k: nat, quota: nat, most: nat, flights: seq<Flight>) {
    && CountInFlight(rule, flights) <= k
    && (forall fl :: fl in flights && InFlight(rule, fl) ==> Quota(fl.request) <= quota)
    && (forall fl :: fl in flights && fl.phase.Recording? && InFlight(rule, fl) ==>
         Weight(rule.measure, fl.phase.row) <= most)
  }

  /** So it is at every moment. */
  ghost predicate Load(rule: Rule, k: nat, quota: nat, most: nat, states: seq<System>) {
    forall i :: 0 <= i < |states| ==> LoadAt(rule, k, quota, most, states[i].flights)
  }

  lemma {:induction false} RunOk(rules: seq<Rule>, idLength: nat, states: seq<System>, i: nat)
    requires IsRun(rules, idLength, states) && i < |states|
    ensures SystemOk(states[i])
    decreases i
  {
    if i > 0 {
      RunOk(rules, idLength, states, i - 1);
      var step := StepTo(rules, idLength, states, i);
      NextOk(rules, idLength, states[i - 1], step);
    }
  }

  lemma LoadIsModest(rule: Rule, k: nat, quota: nat, most: nat, states: seq<System>, i: nat)
    requires Load(rule, k, quota, most, states) && i < |states| && SystemOk(states[i])
    ensures Modest(rule, k * quota, most, states[i])
  {
    var s := states[i];
    forall w: Span | w.Between? ensures Credits(rule, w, s.now, s.flights) <= k * quota {
      CreditsWithin(rule, w, s.now, s.flights, k, quota);
    }
  }

  lemma CreditsWithin(rule: Rule, w: Span, now: nat, flights: seq<Flight>, k: nat, quota: nat)
    requires w.Between? && CountInFlight(rule, flights) <= k
    requires forall fl :: fl in flights ==> FlightOk(fl, now)
    requires forall fl :: fl in flights && InFlight(rule, fl) ==> Quota(fl.request) <= quota
    ensures Credits(rule, w, now, flights) <= k * quota
  {
    CreditsBounded(rule, w, now, flights, quota);
    Times(quota, CountInFlight(rule, flights), k);
  }

  lemma {:induction false} RunBounded(rules: seq<Rule>, idLength: nat, rule: Rule, w: Span, k: nat,
                                      quota: nat, most: nat, states: seq<System>, i: nat)
    requires IsRun(rules, idLength, states) && i < |states|
    requires rule in rules && rule.limit > 0 && RuleWindow(rule, w)
    requires Load(rule, k, quota, most, states)
    ensures Bounded(rule, w, k * quota, most, states[i])
    decreases i
  {
    RunOk(rules, idLength, states, i);
    LoadIsModest(rule, k, quota, most, states, i);
    if i == 0 {
      FreshBound(rule, w, k * quota, most, states[0]);
    } else {
      RunBounded(rules, idLength, rule, w, k, quota, most, states, i - 1);
      RunOk(rules, idLength, states, i - 1);
      LoadIsModest(rule, k, quota, most, states, i - 1);
      var step := StepTo(rules, idLength, states, i);
      NextBounded(rules, idLength, rule, w, k * quota, most, states[i - 1], step);
    }
  }

  /** MAIN RESULT. In every run and for every window of every rule (each 60 seconds of a rate
      limit, each calendar month of a budget), the ledger never holds more than the limit less
      one, plus what `k` requests of `quota` attempts weighing at most `most` can add. */
  lemma OvershootBound(rules: seq<Rule>, idLength: nat, rule: Rule, w: Span, k: nat, quota: nat,
                       most: nat, states: seq<System>, i: nat)
    requires IsRun(rules, idLength, states) && i < |states|
    requires rule in rules && rule.limit > 0 && RuleWindow(rule, w)
    requires Load(rule, k, quota, most, states)
    ensures Total(states[i].ledger, rule, w) <= rule.limit - 1 + k * quota * most
  {
    RunBounded(rules, idLength, rule, w, k, quota, most, states, i);
    WithinBound(Total(states[i].ledger, rule, w), Credits(rule, w, states[i].now, states[i].flights),
      rule.limit - 1, k, quota, most);
  }

  lemma WithinBound(total: nat, credits: nat, below: int, k: nat, quota: nat, most: nat)
    requires total + most * credits <= below + most * (k * quota)
    ensures total <= below + k * quota * most
  {
    assert most * (k * quota) == k * quota * most;
  }

  // ---------------------------------------------------------------- the limits of the gateway

  /** Requests per minute: no 60 seconds hold more rows than the limit less one plus the attempts
      of the requests in flight. No hypothesis on retries: the policy never allows more than 5. */
  lemma RequestsPerMinute(rules: seq<Rule>, idLength: nat, rule: Rule, w: Span, k: nat,
                          states: seq<System>, i: nat)
    requires IsRun(rules, idLength, states) && i < |states|
    requires rule in rules && rule.limit > 0 && rule.measure.Requests? && RuleWindow(rule, w)
    requires forall j :: 0 <= j < |states| ==> CountInFlight(rule, states[j].flights) <= k
    ensures Total(states[i].ledger, rule, w) <= rule.limit - 1 + k * 6
  {
    assert Load(rule, k, MAX_RETRIES + 1, 1, states);
    OvershootBound(rules, idLength, rule, w, k, MAX_RETRIES + 1, 1, states, i);
  }

  /** One request at a time in the scope, never retried: then the limit is kept exactly. */
  lemma OneAtATimeKeepsLimit(rules: seq<Rule>, idLength: nat, rule: Rule, w: Span,
                             states: seq<System>, i: nat)
    requires IsRun(rules, idLength, states) && i < |states|
    requires rule in rules && rule.limit > 0 && rule.measure.Requests? && RuleWindow(rule, w)
    requires forall j :: 0 <= j < |states| ==> CountInFlight(rule, states[j].flights) <= 1
    requires forall j :: 0 <= j < |states| ==>
      forall fl :: fl in states[j].flights && InFlight(rule, fl) ==>
        fl.request.streaming || fl.request.retryAttempts <= 0
    ensures Total(states[i].ledger, rule, w) <= rule.limit
  {
    forall j | 0 <= j < |states| ensures LoadAt(rule, 1, 1, 1, states[j].flights) {
      forall fl | fl in states[j].flights && InFlight(rule, fl) ensures Quota(fl.request) <= 1 {
      }
    }
    OvershootBound(rules, idLength, rule, w, 1, 1, 1, states, i);
  }

  /** A monthly budget: spend stays below the limit plus what the attempts in flight can cost,
      and candidates without prices add nothing to it. */
  lemma MonthlyBudget(rules: seq<Rule>, idLength: nat, rule: Rule, month: nat, k: nat,
                      dearest: nat, states: seq<System>, i: nat)
    requires IsRun(rules, idLength, states) && i < |states|
    requires rule in rules && rule.limit > 0 && rule.measure.Spend? && rule.period.CalendarMonth?
    requires forall j :: 0 <= j < |states| ==>
      && CountInFlight(rule, states[j].flights) <= k
      && (forall fl :: fl in states[j].flights && fl.phase.Recording? && InFlight(rule, fl) ==>
           fl.phase.row.cost <= dearest)
    ensures Total(states[i].ledger, rule, Between(MonthStart(month), MonthStart(month + 1) - 1))
          < rule.limit + k * 6 * dearest
  {
    assert Load(rule, k, MAX_RETRIES + 1, dearest, states);
    OvershootBound(rules, idLength, rule, Between(MonthStart(month), MonthStart(month + 1) - 1), k,
                   MAX_RETRIES + 1, dearest, states, i);
  }
}
