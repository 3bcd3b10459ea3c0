/** Requests running concurrently against one ledger: every check, upstream call, time stamp and
    insert is a step of its own, and steps of different requests interleave freely. */
module Admission {
  import opened Text
  import opened Ledger
  import opened Upstream

  /** A candidate model on its provider. */
  datatype Route = Route(model: Model, provider: string)

  /** What a request brings: its base id, who sends it, its candidates in order, and the retry
      setting of the model it asked for. */
  datatype Request = Request(
    id: string, user: string, department: string, apiKey: string,
    plan: seq<Route>, retryAttempts: int, streaming: bool)

  const MAX_RETRIES := 5

  /** `reliabilityPolicy` clamps the setting: between 0 and 5 it is kept. */
  function Retries(q: Request): (r: nat)
    ensures r <= 5 && (0 <= q.retryAttempts <= 5 ==> r == q.retryAttempts)
    ensures (q.retryAttempts < 0 ==> r == 0) && (q.retryAttempts > 5 ==> r == 5)
  {
    if q.retryAttempts < 0 then 0
    else if q.retryAttempts > MAX_RETRIES then MAX_RETRIES else q.retryAttempts
  }

  /** Upstream attempts one admission of a candidate pays for; a stream is attempted once. */
  function Quota(q: Request): (n: nat)
    ensures 1 <= n <= MAX_RETRIES + 1
  {
    if q.streaming then 1 else Retries(q) + 1
  }

  predicate RequestInScope(q: Request, route: Route, scope: Scope) {
    match scope
    case UserScope(u) => q.user == u
    case DepartmentScope(d) => q.department == d
    case ApiKeyScope(k) => q.apiKey == k
    case ProviderScope(p) => route.provider == p
    case ModelScope(m) => route.model.route == m
  }

  /** Whether a candidate is checked against a rule: limits that are off are skipped, and spend
      is checked for priced models only. */
  predicate Applies(rule: Rule, q: Request, route: Route) {
    && rule.limit > 0
    && RequestInScope(q, route, rule.scope)
    && (rule.measure.Spend? ==> IsPriced(route.model))
  }

  /** The checks a candidate has to pass, in the order they are made. */
  function ChecksFor(rules: seq<Rule>, q: Request, route: Route): seq<Rule> {
    if rules == [] then []
    else
      ChecksFor(rules[..|rules| - 1], q, route)
      + if Applies(rules[|rules| - 1], q, route) then [rules[|rules| - 1]] else []
  }

  /** Where a request stands with candidate `idx`. */
  datatype Phase =
    | Ready(idx: nat)                                              // about to look at it
    | Checking(idx: nat, remaining: seq<Rule>, clock: nat)         // some checks still to make
    | Calling(idx: nat, left: nat)                                 // admitted, attempts left
    | Recording(idx: nat, left: nat, row: Row, status: int)        // row stamped, not inserted
    | Finished

  datatype Flight = Flight(request: Request, phase: Phase, attempts: nat)

  datatype System = System(now: nat, ledger: seq<Row>, flights: seq<Flight>)

  /** One step of one request. */
  datatype Move =
    | Consider                          // start checking the candidate
    | PassOver                          // circuit open, or the key may not use the model
    | ReadClock                         // the checks read the clock again
    | Check                             // one query and its decision
    | Admit                             // every check passed
    | Stamp(inputTokens: nat, outputTokens: nat, total: nat, status: int)
    | Record                            // the insert, and what comes next
    | Exhaust                           // no candidate is left

  /** The row of an attempt: its cost follows from its tokens and the model's prices. */
  function NewRow(q: Request, route: Route, attempt: nat, m: Move, now: nat): Row
    requires m.Stamp?
  {
    Row(AttemptId(q.id, attempt), q.user, q.department, q.apiKey, route.provider,
        route.model.route, m.total, Cost(m.inputTokens, m.outputTokens, route.model), now)
  }

  /** After the attempt: done, retried, or on to the next candidate. */
  function AfterRecord(q: Request, idx: nat, left: nat, status: int): Phase {
    if !IsFailure(status) || q.streaming then Finished
    else if left > 0 && AllowsRetry(status) then Calling(idx, left)
    else Ready(idx + 1)
  }

  /** The flight after a move, if the move is possible. */
  function After(rules: seq<Rule>, now: nat, ledger: seq<Row>, fl: Flight, m: Move): Option<Flight> {
    var q := fl.request;
    match fl.phase
    case Finished => None
    case Ready(i) =>
      if i >= |q.plan| then
        if m.Exhaust? then Some(fl.(phase := Finished)) else None
      else if m.Consider? then
        Some(fl.(phase := Checking(i, ChecksFor(rules, q, q.plan[i]), now)))
      else if m.PassOver? then
        Some(fl.(phase := if i == 0 then Finished else Ready(i + 1)))
      else None
    case Checking(i, remaining, clock) =>
      if i >= |q.plan| then None
      else if m.ReadClock? then Some(fl.(phase := Checking(i, remaining, now)))
      else if m.Check? && remaining != [] then
        if Total(ledger, remaining[0], QuerySpan(remaining[0], clock)) < remaining[0].limit then
          Some(fl.(phase := Checking(i, remaining[1..], clock)))
        else
          Some(fl.(phase := if i == 0 then Finished else Ready(i + 1)))
      else if m.Admit? && remaining == [] then Some(fl.(phase := Calling(i, Quota(q))))
      else if m.PassOver? && remaining == [] && i == 0 then Some(fl.(phase := Ready(1)))
      else None
    case Calling(i, left) =>
      if i < |q.plan| && m.Stamp? && left > 0 then
        Some(fl.(attempts := fl.attempts + 1,
                 phase := Recording(i, left - 1, NewRow(q, q.plan[i], fl.attempts + 1, m, now), m.status)))
      else None
    case Recording(i, left, row, status) =>
      if m.Record? then Some(fl.(phase := AfterRecord(q, i, left, status))) else None
  }

  datatype Step = Tick(amount: nat) | Arrive(request: Request) | Fly(f: nat, move: Move)

  /** The system after a step, if the step is possible. Base ids are fresh and of one length. */
  function Next(rules: seq<Rule>, idLength: nat, s: System, step: Step): Option<System> {
    match step
    case Tick(d) => Some(s.(now := s.now + d))
    case Arrive(q) =>
      if |q.id| == idLength && forall fl :: fl in s.flights ==> fl.request.id != q.id then
        Some(s.(flights := s.flights + [Flight(q, Ready(0), 0)]))
      else None
    case Fly(f, m) =>
      if f >= |s.flights| then None
      else
        match After(rules, s.now, s.ledger, s.flights[f], m)
        case None => None
        case Some(fl) =>
          Some(s.(flights := s.flights[f := fl],
                  ledger := if m.Record? && s.flights[f].phase.Recording?
                            then Insert(s.ledger, s.flights[f].phase.row) else s.ledger))
  }

  ghost predicate IsStep(rules: seq<Rule>, idLength: nat, s: System, step: Step, t: System) {
    Next(rules, idLength, s, step) == Some(t)
  }

  ghost predicate Follows(rules: seq<Rule>, idLength: nat, s: System, t: System) {
    exists step :: IsStep(rules, idLength, s, step, t)
  }

  /** Every sequence of states the system can go through from an empty ledger. */
  ghost predicate IsRun(rules: seq<Rule>, idLength: nat, states: seq<System>) {
    && states != []
    && states[0] == System(states[0].now, [], [])
    && (forall i :: 0 <= i < |states| - 1 ==> Follows(rules, idLength, states[i], states[i + 1]))
  }

  /** The step that led to the `i`-th state. */
  lemma StepTo(rules: seq<Rule>, idLength: nat, states: seq<System>, i: nat) returns (step: Step)
    requires IsRun(rules, idLength, states) && 0 < i < |states|
    ensures Next(rules, idLength, states[i - 1], step) == Some(states[i])
  {
    var before := i - 1;
    assert Follows(rules, idLength, states[before], states[before + 1]);
    step :| IsStep(rules, idLength, states[before], step, states[i]);
  }

  lemma FrontIsRun(rules: seq<Rule>, idLength: nat, states: seq<System>)
    requires IsRun(rules, idLength, states) && |states| > 1
    ensures IsRun(rules, idLength, states[..|states| - 1])
  {
    var front := states[..|states| - 1];
    forall i | 0 <= i < |front| - 1 ensures Follows(rules, idLength, front[i], front[i + 1]) {
      assert Follows(rules, idLength, states[i], states[i + 1]);
    }
  }
}
