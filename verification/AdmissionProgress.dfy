/** No request runs forever or gets stuck: which moves it can make, and how many. */
module AdmissionProgress {
  import opened Text
  import opened Ledger
  import opened Admission

  // ---------------------------------------------------------------- which moves are possible

  /** The moves of a request, phase by phase: a candidate is checked or passed over; a check or another
      reading of the clock while checks remain; then the attempts, or, for the first candidate, which was
      checked before the plan, being passed over after all; each attempt is stamped and recorded. */
  lemma MovesExactly(rules: seq<Rule>, now: nat, ledger: seq<Row>, fl: Flight, m: Move)
    ensures After(rules, now, ledger, fl, m).Some? <==>
      match fl.phase
      case Ready(i) => if i < |fl.request.plan| then m.Consider? || m.PassOver? else m.Exhaust?
      case Checking(i, remaining, _) =>
        i < |fl.request.plan|
        && (m.ReadClock? || (if remaining != [] then m.Check? else m.Admit? || (m.PassOver? && i == 0)))
      case Calling(i, left) => i < |fl.request.plan| && left > 0 && m.Stamp?
      case Recording(_, _, _, _) => m.Record?
      case Finished => false
  {
  }

  /** Where each move leads. */
  lemma MovesLead(rules: seq<Rule>, now: nat, ledger: seq<Row>, fl: Flight, m: Move)
    requires After(rules, now, ledger, fl, m).Some?
    ensures var next := After(rules, now, ledger, fl, m).value.phase;
      && (m.Exhaust? ==> next.Finished?)
      && (m.Consider? ==> next.Checking? && next.idx == fl.phase.idx && next.clock == now)
      && (m.PassOver? ==> next == if fl.phase.Ready? && fl.phase.idx == 0 then Finished else Ready(fl.phase.idx + 1))
      && (m.ReadClock? ==> next == Checking(fl.phase.idx, fl.phase.remaining, now))
      && (m.Check? ==>
           next == Checking(fl.phase.idx, fl.phase.remaining[1..], fl.phase.clock)
           || next == if fl.phase.idx == 0 then Finished else Ready(fl.phase.idx + 1))
      && (m.Admit? ==> next.Calling? && next.idx == fl.phase.idx)
      && (m.Stamp? ==> next.Recording? && next.idx == fl.phase.idx && next.left == fl.phase.left - 1)
  {
  }

  // ---------------------------------------------------------------- how many

  /** The moves one candidate can cost: its checks, its attempts with their records, and three more. */
  function PerCandidate(rules: seq<Rule>, q: Request): nat {
    |rules| + 2 * Quota(q) + 2
  }

  /** The moves the candidates after the `i`-th can cost. */
  function Later(rules: seq<Rule>, q: Request, i: nat): nat {
    if i + 1 >= |q.plan| then 0 else (|q.plan| - i - 1) * PerCandidate(rules, q)
  }

  /** How many moves a flight has left at most, reading the clock aside. */
  function Work(rules: seq<Rule>, fl: Flight): nat {
    var q := fl.request;
    match fl.phase
    case Finished => 0
    case Ready(i) => 1 + if i < |q.plan| then Later(rules, q, i) + PerCandidate(rules, q) else 0
    case Checking(i, remaining, _) => 2 + Later(rules, q, i) + |remaining| + 2 * Quota(q)
    case Calling(i, left) => 1 + Later(rules, q, i) + 2 * left
    case Recording(i, left, _, _) => 2 + Later(rules, q, i) + 2 * left
  }

  lemma LaterNext(rules: seq<Rule>, q: Request, i: nat)
    ensures i + 1 < |q.plan| ==> Later(rules, q, i) == Later(rules, q, i + 1) + PerCandidate(rules, q)
    ensures i + 1 >= |q.plan| ==> Later(rules, q, i) == 0
  {
    if i + 1 < |q.plan| {
      OneLess(|q.plan| - i - 1, PerCandidate(rules, q));
    }
  }

  lemma OneLess(n: nat, c: nat)
    requires n > 0
    ensures n * c == (n - 1) * c + c
  {
  }

  lemma {:induction false} FewChecks(rules: seq<Rule>, q: Request, route: Route)
    ensures |ChecksFor(rules, q, route)| <= |rules|
    decreases |rules|
  {
    if rules != [] {
      FewChecks(rules[..|rules| - 1], q, route);
    }
  }

  /** Every move but another reading of the clock leaves less to do. */
  lemma MoveWorks(rules: seq<Rule>, now: nat, ledger: seq<Row>, fl: Flight, m: Move)
    requires After(rules, now, ledger, fl, m).Some?
    ensures var fl' := After(rules, now, ledger, fl, m).value;
      if m.ReadClock? then Work(rules, fl') == Work(rules, fl) else Work(rules, fl') < Work(rules, fl)
  {
    if !fl.phase.Finished? {
      LaterNext(rules, fl.request, fl.phase.idx);
    }
    if m.Consider? {
      FewChecks(rules, fl.request, fl.request.plan[fl.phase.idx]);
    }
  }

  /** In a run: the moves flight `f` has made, other than reading the clock again. */
  function MovesMade(states: seq<System>, f: nat): nat {
    if |states| <= 1 then 0
    else
      var n := |states| - 1;
      MovesMade(states[..n], f) + if f < |states[n - 1].flights| && f < |states[n].flights|
        && !SameButClock(states[n - 1].flights[f], states[n].flights[f]) then 1 else 0
  }

  predicate SameButClock(a: Flight, b: Flight) {
    a == b || (a.phase.Checking? && b.phase.Checking? && b == a.(phase := a.phase.(clock := b.phase.clock)))
  }

  lemma SameWork(rules: seq<Rule>, a: Flight, b: Flight)
    requires SameButClock(a, b)
    ensures Work(rules, a) == Work(rules, b)
  {
  }

  /** What is always so of a flight: it has an attempt left where it is to make one. */
  predicate CanGoOn(fl: Flight) {
    match fl.phase
    case Checking(i, _, _) => i < |fl.request.plan|
    case Calling(i, left) => i < |fl.request.plan| && left > 0
    case Recording(i, _, _, _) => i < |fl.request.plan|
    case _ => true
  }

  lemma {:induction false} RunGoesOn(rules: seq<Rule>, idLength: nat, states: seq<System>, f: nat, i: nat)
    requires IsRun(rules, idLength, states) && i < |states| && f < |states[i].flights|
    ensures CanGoOn(states[i].flights[f])
    decreases i
  {
    if i > 0 {
      var step := StepTo(rules, idLength, states, i);
      if f < |states[i - 1].flights| {
        RunGoesOn(rules, idLength, states, f, i - 1);
      }
    }
  }

  /** MAIN RESULT. In every run a request that is not finished can go on: some move other than reading
      the clock again is possible. */
  lemma NeverStuck(rules: seq<Rule>, idLength: nat, states: seq<System>, f: nat)
    requires IsRun(rules, idLength, states) && f < |states[|states| - 1].flights|
    requires !states[|states| - 1].flights[f].phase.Finished?
    ensures var s := states[|states| - 1];
      exists m: Move :: !m.ReadClock? && After(rules, s.now, s.ledger, s.flights[f], m).Some?
  {
    var s := states[|states| - 1];
    var fl := s.flights[f];
    RunGoesOn(rules, idLength, states, f, |states| - 1);
    var m := match fl.phase
      case Ready(i) => if i < |fl.request.plan| then Consider else Exhaust
      case Checking(_, remaining, _) => if remaining != [] then Check else Admit
      case Calling(_, _) => Stamp(0, 0, 0, 200)
      case _ => Record;
    MovesExactly(rules, s.now, s.ledger, fl, m);
  }

  lemma StepWorks(rules: seq<Rule>, idLength: nat, s: System, step: Step, t: System, f: nat)
    requires Next(rules, idLength, s, step) == Some(t) && f < |s.flights|
    ensures f < |t.flights| && t.flights[f].request == s.flights[f].request
    ensures Work(rules, t.flights[f]) + (if SameButClock(s.flights[f], t.flights[f]) then 0 else 1)
      <= Work(rules, s.flights[f])
  {
    if step.Fly? && step.f == f {
      MoveWorks(rules, s.now, s.ledger, s.flights[f], step.move);
    }
    if SameButClock(s.flights[f], t.flights[f]) {
      SameWork(rules, s.flights[f], t.flights[f]);
    }
  }

  /** The moves all candidates can cost, and the last one. */
  function Allowance(rules: seq<Rule>, q: Request): nat {
    1 + |q.plan| * (|rules| + 2 * Quota(q) + 2)
  }

  lemma {:induction false} RunWorks(rules: seq<Rule>, idLength: nat, states: seq<System>, f: nat)
    requires IsRun(rules, idLength, states) && f < |states[|states| - 1].flights|
    ensures var fl := states[|states| - 1].flights[f];
      MovesMade(states, f) + Work(rules, fl) <= Allowance(rules, fl.request)
    decreases |states|
  {
    var n := |states| - 1;
    if n > 0 {
      var step := StepTo(rules, idLength, states, n);
      var front := states[..n];
      FrontIsRun(rules, idLength, states);
      assert front[|front| - 1] == states[n - 1];
      if f < |states[n - 1].flights| {
        RunWorks(rules, idLength, front, f);
        StepWorks(rules, idLength, states[n - 1], step, states[n], f);
      } else {
        NotYetMoved(rules, idLength, front, f);
        Arrived(rules, idLength, states[n - 1], step, states[n], f);
      }
    }
  }

  lemma Arrived(rules: seq<Rule>, idLength: nat, s: System, step: Step, t: System, f: nat)
    requires Next(rules, idLength, s, step) == Some(t) && |s.flights| <= f < |t.flights|
    ensures Work(rules, t.flights[f]) <= Allowance(rules, t.flights[f].request)
  {
    ArrivalWork(rules, t.flights[f].request);
  }

  /** MAIN RESULT. And it ends: in every run, whatever the others do, a request makes at most so many moves,
      reading the clock again aside: for each candidate one per rule, two per attempt and two more, and one
      at the end. */
  lemma RequestsEnd(rules: seq<Rule>, idLength: nat, states: seq<System>, f: nat)
    requires IsRun(rules, idLength, states) && f < |states[|states| - 1].flights|
    ensures var q := states[|states| - 1].flights[f].request;
      MovesMade(states, f) <= 1 + |q.plan| * (|rules| + 2 * Quota(q) + 2)
  {
    RunWorks(rules, idLength, states, f);
  }

  lemma ArrivalWork(rules: seq<Rule>, q: Request)
    ensures Work(rules, Flight(q, Ready(0), 0)) <= Allowance(rules, q)
  {
    if |q.plan| > 0 {
      OneLess(|q.plan|, PerCandidate(rules, q));
    }
  }

  lemma {:induction false} NotYetMoved(rules: seq<Rule>, idLength: nat, states: seq<System>, f: nat)
    requires IsRun(rules, idLength, states) && f >= |states[|states| - 1].flights|
    ensures MovesMade(states, f) == 0
    decreases |states|
  {
    var n := |states| - 1;
    if n > 0 {
      var step := StepTo(rules, idLength, states, n);
      var front := states[..n];
      assert front[|front| - 1] == states[n - 1] && |states[n - 1].flights| <= |states[n].flights|;
      FrontIsRun(rules, idLength, states);
      NotYetMoved(rules, idLength, front, f);
    }
  }

  // ---------------------------------------------------------------- the clock

  /** Time can always pass, by any amount, and moves the clock only; nothing else moves it. */
  lemma ClockTicks(rules: seq<Rule>, idLength: nat, s: System, step: Step)
    ensures step.Tick? ==> Next(rules, idLength, s, step) == Some(System(s.now + step.amount, s.ledger, s.flights))
    ensures !step.Tick? && Next(rules, idLength, s, step).Some? ==> Next(rules, idLength, s, step).value.now == s.now
  {
  }
}
