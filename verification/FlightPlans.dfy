/** The attempts a request makes in the step system are the attempts of a plan. */
module FlightPlans {
  import opened Text
  import opened Ledger
  import opened Admission
  import opened Upstream
  import L = LedgerCompleteness
  import P = PlanExecution

  /** The attempt a flight makes between two states of it, if it makes one. */
  function Stamped(before: Flight, after: Flight): seq<P.Attempt> {
    if before.phase.Calling? && after.phase.Recording? then
      var left, quota := before.phase.left, Quota(before.request);
      [P.Attempt(before.phase.idx, if left <= quota then quota - left + 1 else 1, after.attempts,
                 after.phase.status, after.phase.status)]
    else []
  }

  /** What the step from `s` to `t` adds to the attempts of flight `f`. */
  function Attempted(s: System, t: System, f: nat): seq<P.Attempt> {
    if f < |s.flights| && f < |t.flights| then Stamped(s.flights[f], t.flights[f]) else []
  }

  /** The attempts of flight `f` in a run, in order. */
  function Attempts(states: seq<System>, f: nat): seq<P.Attempt> {
    if |states| <= 1 then []
    else
      Attempts(states[..|states| - 1], f) + Attempted(states[|states| - 2], states[|states| - 1], f)
  }

  /** The policy a request's quota comes from. */
  function PolicyOf(q: Request): P.Policy {
    P.Policy(Quota(q) - 1, true)
  }

  /** Attempts are numbered through; the step system knows one status of each. */
  predicate Numbered(t: seq<P.Attempt>) {
    forall i :: 0 <= i < |t| ==> t[i].number == i + 1 && t[i].upstreamStatus == t[i].status
  }

  /** Attempt `b` may come after attempt `a`. */
  predicate Continues(p: P.Policy, a: P.Attempt, b: P.Attempt) {
    && IsFailure(a.status)
    && if P.TriesAgain(p, a) then b.candidate == a.candidate && b.try == a.try + 1
       else b.candidate > a.candidate && b.try == 1
  }

  predicate Chained(p: P.Policy, t: seq<P.Attempt>) {
    && (t != [] ==> t[0].try == 1)
    && (forall i :: 0 <= i < |t| - 1 ==> Continues(p, t[i], t[i + 1]))
  }

  /** The flight has left behind the candidates before `n`, none of them answering. */
  predicate Left(p: P.Policy, t: seq<P.Attempt>, n: nat) {
    t != [] ==>
      var last := t[|t| - 1];
      IsFailure(last.status) && !P.TriesAgain(p, last) && last.candidate < n
  }

  /** How the attempts made so far fit the flight's phase. */
  predicate Fits(fl: Flight, t: seq<P.Attempt>) {
    var p, quota := PolicyOf(fl.request), Quota(fl.request);
    match fl.phase
    case Ready(n) => Left(p, t, n)
    case Checking(n, _, _) => Left(p, t, n)
    case Calling(n, left) =>
      left <= quota && n < |fl.request.plan|
      && if left == quota then Left(p, t, n)
         else t != [] && t[|t| - 1].candidate == n && t[|t| - 1].try == quota - left && P.TriesAgain(p, t[|t| - 1])
    case Recording(n, left, _, status) =>
      left < quota && n < |fl.request.plan|
      && t != [] && t[|t| - 1].candidate == n && t[|t| - 1].try == quota - left && t[|t| - 1].status == status
    case Finished => true
  }

  predicate InPlan(q: Request, t: seq<P.Attempt>) {
    forall i :: 0 <= i < |t| ==> t[i].candidate < |q.plan|
  }

  /** The attempts of a flight, at every moment. */
  ghost predicate Kept(fl: Flight, t: seq<P.Attempt>) {
    && |t| == fl.attempts
    && Numbered(t) && InPlan(fl.request, t)
    && Chained(PolicyOf(fl.request), t)
    && Fits(fl, t)
  }

  lemma ChainedSnoc(p: P.Policy, t: seq<P.Attempt>, a: P.Attempt)
    requires Chained(p, t) && if t == [] then a.try == 1 else Continues(p, t[|t| - 1], a)
    ensures Chained(p, t + [a])
  {
    var t' := t + [a];
    forall i | 0 <= i < |t'| - 1 ensures Continues(p, t'[i], t'[i + 1]) {
      if i < |t| - 1 {
        assert Continues(p, t[i], t[i + 1]);
      }
    }
  }

  /** A stamp adds an attempt. */
  lemma StampKeeps(rules: seq<Rule>, now: nat, ledger: seq<Row>, fl: Flight, m: Move, t: seq<P.Attempt>)
    requires Kept(fl, t) && fl.phase.Calling? && After(rules, now, ledger, fl, m).Some?
    ensures var fl' := After(rules, now, ledger, fl, m).value;
      fl'.phase.Recording? && fl'.attempts == fl.attempts + 1
      && Kept(fl', t + [P.Attempt(fl.phase.idx, Quota(fl.request) - fl.phase.left + 1, fl.attempts + 1,
                                  fl'.phase.status, fl'.phase.status)])
  {
    var fl' := After(rules, now, ledger, fl, m).value;
    var a := P.Attempt(fl.phase.idx, Quota(fl.request) - fl.phase.left + 1, fl.attempts + 1,
                       fl'.phase.status, fl'.phase.status);
    ChainedSnoc(PolicyOf(fl.request), t, a);
    WithoutLast(t, a);
  }

  /** Any other move adds none. */
  lemma MoveKeeps(rules: seq<Rule>, now: nat, ledger: seq<Row>, fl: Flight, m: Move, t: seq<P.Attempt>)
    requires Kept(fl, t) && !fl.phase.Calling? && After(rules, now, ledger, fl, m).Some?
    ensures var fl' := After(rules, now, ledger, fl, m).value;
      !fl'.phase.Recording? && Kept(fl', t)
  {
  }

  lemma {:induction false} RunKeeps(rules: seq<Rule>, idLength: nat, states: seq<System>, f: nat)
    requires IsRun(rules, idLength, states) && f < |states[|states| - 1].flights|
    ensures Kept(states[|states| - 1].flights[f], Attempts(states, f))
    decreases |states|
  {
    var n := |states| - 1;
    if n > 0 {
      var front := states[..n];
      var step := StepTo(rules, idLength, states, n);
      var s, t := states[n - 1], states[n];
      FrontIsRun(rules, idLength, states);
      assert front[|front| - 1] == s;
      if f < |s.flights| {
        RunKeeps(rules, idLength, front, f);
        StepKeeps(rules, idLength, s, step, t, f, Attempts(front, f));
      } else {
        NotYetThere(rules, idLength, front, f);
        WithNothing<P.Attempt>([]);
        ArrivalKept(rules, idLength, s, step, t, f);
      }
    }
  }

  lemma ArrivalKept(rules: seq<Rule>, idLength: nat, s: System, step: Step, t: System, f: nat)
    requires Next(rules, idLength, s, step) == Some(t) && |s.flights| <= f < |t.flights|
    ensures Kept(t.flights[f], [])
  {
  }

  lemma StepKeeps(rules: seq<Rule>, idLength: nat, s: System, step: Step, t: System, f: nat, made: seq<P.Attempt>)
    requires Next(rules, idLength, s, step) == Some(t) && f < |s.flights| && f < |t.flights|
    requires Kept(s.flights[f], made)
    ensures Kept(t.flights[f], made + Attempted(s, t, f))
  {
    if step.Fly? && step.f == f {
      MoveIs(rules, idLength, s, step, t, f);
      FlightKeeps(rules, s.now, s.ledger, s.flights[f], step.move, made);
    } else {
      OthersStay(rules, idLength, s, step, t, f);
      WithNothing(made);
    }
  }

  lemma MoveIs(rules: seq<Rule>, idLength: nat, s: System, step: Step, t: System, f: nat)
    requires Next(rules, idLength, s, step) == Some(t) && step.Fly? && step.f == f < |s.flights|
    ensures |t.flights| == |s.flights|
    ensures After(rules, s.now, s.ledger, s.flights[f], step.move) == Some(t.flights[f])
  {
  }

  lemma OthersStay(rules: seq<Rule>, idLength: nat, s: System, step: Step, t: System, f: nat)
    requires Next(rules, idLength, s, step) == Some(t) && f < |s.flights| && !(step.Fly? && step.f == f)
    ensures f < |t.flights| && t.flights[f] == s.flights[f]
  {
  }

  lemma FlightKeeps(rules: seq<Rule>, now: nat, ledger: seq<Row>, fl: Flight, m: Move, made: seq<P.Attempt>)
    requires Kept(fl, made) && After(rules, now, ledger, fl, m).Some?
    ensures var fl' := After(rules, now, ledger, fl, m).value; Kept(fl', made + Stamped(fl, fl'))
  {
    if fl.phase.Calling? {
      StampKeeps(rules, now, ledger, fl, m, made);
    } else {
      MoveKeeps(rules, now, ledger, fl, m, made);
      WithNothing(made);
    }
  }

  /** A flight that is not there yet has made no attempts. */
  lemma {:induction false} NotYetThere(rules: seq<Rule>, idLength: nat, states: seq<System>, f: nat)
    requires IsRun(rules, idLength, states) && f >= |states[|states| - 1].flights|
    ensures Attempts(states, f) == []
    decreases |states|
  {
    var n := |states| - 1;
    if n > 0 {
      var step := StepTo(rules, idLength, states, n);
      FrontIsRun(rules, idLength, states);
      assert |states[n - 1].flights| <= |states[n].flights|;
      NotYetThere(rules, idLength, states[..n], f);
    }
  }

  // ---------------------------------------------------------------- the plan

  predicate Tries(t: seq<P.Attempt>, c: nat) {
    exists i :: 0 <= i < |t| && t[i].candidate == c
  }

  /** The candidates as the plan saw them: the circuits of those passed over were open. */
  function CandidatesOf(q: Request, t: seq<P.Attempt>): seq<P.Candidate> {
    seq(|q.plan|, c requires 0 <= c < |q.plan| => P.Candidate("openai", if Tries(t, c) then None else Some(1)))
  }

  /** The replies the attempts got. */
  function WorldOf(t: seq<P.Attempt>): P.World {
    P.World(_ => 0, _ => None, n => P.Reply(if 1 <= n <= |t| then t[n - 1].status else 0, false))
  }

  lemma EligibleAre(q: Request, t: seq<P.Attempt>, c: nat)
    requires c < |q.plan|
    ensures P.Eligible(WorldOf(t), PolicyOf(q), CandidatesOf(q, t), c) <==> Tries(t, c)
  {
    assert P.Protocol("openai") == "openai";
  }

  lemma {:induction false} Ordered(p: P.Policy, t: seq<P.Attempt>, i: nat, j: nat)
    requires Chained(p, t) && i <= j < |t|
    ensures t[i].candidate <= t[j].candidate
    decreases j
  {
    if i < j {
      Ordered(p, t, i, j - 1);
      assert Continues(p, t[j - 1], t[j - 1 + 1]);
    }
  }

  /** Candidates between those of two attempts in a row were passed over. */
  lemma NoneBetween(q: Request, t: seq<P.Attempt>, i: nat, c: nat)
    requires Chained(PolicyOf(q), t) && i + 1 < |t| && t[i].candidate < c < t[i + 1].candidate
    ensures !Tries(t, c)
  {
    if Tries(t, c) {
      var j :| 0 <= j < |t| && t[j].candidate == c;
      if j <= i {
        Ordered(PolicyOf(q), t, j, i);
      } else {
        Ordered(PolicyOf(q), t, i + 1, j);
      }
      assert false;
    }
  }

  lemma NoneBefore(q: Request, t: seq<P.Attempt>, c: nat)
    requires Chained(PolicyOf(q), t) && t != [] && c < t[0].candidate
    ensures !Tries(t, c)
  {
    if Tries(t, c) {
      var j :| 0 <= j < |t| && t[j].candidate == c;
      Ordered(PolicyOf(q), t, 0, j);
      assert false;
    }
  }

  lemma IsTrace(q: Request, t: seq<P.Attempt>)
    requires Numbered(t) && InPlan(q, t) && Chained(PolicyOf(q), t)
    ensures P.Trace(WorldOf(t), PolicyOf(q), CandidatesOf(q, t), t)
  {
    var w, p, cs := WorldOf(t), PolicyOf(q), CandidatesOf(q, t);
    if t != [] {
      EligibleAre(q, t, t[0].candidate);
      forall c: nat | c < t[0].candidate ensures !P.Eligible(w, p, cs, c) {
        NoneBefore(q, t, c);
        EligibleAre(q, t, c);
      }
    }
    forall i | 0 <= i < |t| - 1 ensures P.Follows(w, p, cs, t[i], t[i + 1]) {
      assert Continues(p, t[i], t[i + 1]);
      EligibleAre(q, t, t[i + 1].candidate);
      forall c: nat | t[i].candidate < c < t[i + 1].candidate ensures !P.Eligible(w, p, cs, c) {
        NoneBetween(q, t, i, c);
        EligibleAre(q, t, c);
      }
    }
  }

  /** A failure: too many requests, a refused key or a server error. */
  predicate Failing(status: int) {
    status in {429, 401, 403} || status >= 500
  }

  /** The tries a candidate gets: one for a stream or without retries, and never more than six. */
  function TriesOf(q: Request): nat {
    if q.streaming || q.retryAttempts <= 0 then 1 else if q.retryAttempts >= 5 then 6 else q.retryAttempts + 1
  }

  /** What every plan of a request keeps. */
  predicate IsPlan(q: Request, t: seq<P.Attempt>) {
    && P.Trace(WorldOf(t), PolicyOf(q), CandidatesOf(q, t), t)
    && |t| <= |q.plan| * TriesOf(q)
    && (forall i :: 0 <= i < |t| - 1 ==> Failing(t[i].status))
    && (forall i :: 0 <= i < |t| - 1 ==>
         (t[i + 1].candidate == t[i].candidate <==>
           (t[i].status == 429 || t[i].status >= 500) && t[i].try < TriesOf(q)))
  }

  lemma TraceIsPlan(q: Request, t: seq<P.Attempt>)
    requires Numbered(t) && InPlan(q, t) && Chained(PolicyOf(q), t)
    ensures IsPlan(q, t)
  {
    IsTrace(q, t);
    assert Quota(q) == TriesOf(q);
    P.PlanIsSafe(WorldOf(t), PolicyOf(q), CandidatesOf(q, t), t);
    if t != [] {
      P.PlanByStatus(WorldOf(t), PolicyOf(q), CandidatesOf(q, t), t);
    }
  }

  /** MAIN RESULT. In every interleaving, at every moment, the attempts a request has made form the
      trace of a plan over its candidates, with the retries its quota allows; what holds of every plan
      holds of them, and there are as many as the flight counts. */
  lemma FlightsRunPlans(rules: seq<Rule>, idLength: nat, states: seq<System>, f: nat)
    requires IsRun(rules, idLength, states) && f < |states[|states| - 1].flights|
    ensures var fl, t := states[|states| - 1].flights[f], Attempts(states, f);
      |t| == fl.attempts && IsPlan(fl.request, t)
  {
    RunKeeps(rules, idLength, states, f);
    TraceIsPlan(states[|states| - 1].flights[f].request, Attempts(states, f));
  }

  /** And each of those attempts has its row, but for one that is still being recorded. */
  lemma AttemptsAreCharged(rules: seq<Rule>, idLength: nat, states: seq<System>, f: nat, i: nat)
    requires IsRun(rules, idLength, states) && f < |states[|states| - 1].flights| && i < |Attempts(states, f)|
    ensures var fl, t := states[|states| - 1].flights[f], Attempts(states, f);
      i < |t| - 1 || !fl.phase.Recording? ==>
        HasId(states[|states| - 1].ledger, AttemptId(fl.request.id, t[i].number))
  {
    var s := states[|states| - 1];
    var id := s.flights[f].request.id;
    RunKeeps(rules, idLength, states, f);
    L.RunComplete(rules, idLength, states, |states| - 1);
    if i < |Attempts(states, f)| - 1 || !s.flights[f].phase.Recording? {
      assert L.IsAttempt(s.flights, f, i + 1, AttemptId(id, i + 1));
    }
  }

  // ---------------------------------------------------------------- how a request ends

  /** The flight has stood before candidate `c`. */
  ghost predicate LookedAt(states: seq<System>, f: nat, c: nat) {
    exists k :: 0 <= k < |states| && f < |states[k].flights| && states[k].flights[f].phase == Ready(c)
  }

  /** The candidate a flight is at, unless it is finished. */
  function Here(fl: Flight): nat {
    match fl.phase
    case Ready(n) => n
    case Checking(n, _, _) => n
    case Calling(n, _) => n
    case Recording(n, _, _, _) => n
    case Finished => 0
  }

  /** It has stood before all candidates up to where it is; when finished, before all of them unless it
      made no attempt, is a stream, or was answered. */
  ghost predicate Looked(states: seq<System>, f: nat, fl: Flight, t: seq<P.Attempt>) {
    if fl.phase.Finished? then
      || t == [] || fl.request.streaming || !Failing(t[|t| - 1].status)
      || forall c: nat :: c < |fl.request.plan| ==> LookedAt(states, f, c)
    else forall c: nat :: c <= Here(fl) ==> LookedAt(states, f, c)
  }

  /** A move leads on to the next candidate, or stays; a flight ends before its last candidate only if the
      first is refused, or an attempt is answered or was a stream's. */
  lemma MovesOn(rules: seq<Rule>, now: nat, ledger: seq<Row>, fl: Flight, m: Move)
    requires After(rules, now, ledger, fl, m).Some?
    ensures var fl' := After(rules, now, ledger, fl, m).value;
      && fl'.request == fl.request && !fl.phase.Finished?
      && (!fl'.phase.Finished? ==> Here(fl') == Here(fl) || fl'.phase == Ready(Here(fl) + 1))
      && (fl'.phase.Finished? ==>
           || Here(fl) >= |fl.request.plan|
           || ((fl.phase.Ready? || fl.phase.Checking?) && Here(fl) == 0)
           || (fl.phase.Recording? && (!Failing(fl.phase.status) || fl.request.streaming)))
  {
  }

  lemma LookedAtLater(states: seq<System>, f: nat, c: nat)
    requires |states| > 0
    ensures LookedAt(states[..|states| - 1], f, c) ==> LookedAt(states, f, c)
    ensures f < |states[|states| - 1].flights| && states[|states| - 1].flights[f].phase == Ready(c) ==>
      LookedAt(states, f, c)
  {
    var front := states[..|states| - 1];
    if LookedAt(front, f, c) {
      var k :| 0 <= k < |front| && f < |front[k].flights| && front[k].flights[f].phase == Ready(c);
      assert states[k] == front[k];
    }
  }

  lemma LookedLater(states: seq<System>, f: nat, fl: Flight, t: seq<P.Attempt>)
    requires |states| > 0 && Looked(states[..|states| - 1], f, fl, t)
    ensures Looked(states, f, fl, t)
  {
    forall c: nat | LookedAt(states[..|states| - 1], f, c) ensures LookedAt(states, f, c) {
      LookedAtLater(states, f, c);
    }
  }

  /** A move on from candidate `n` leads to the next one, to the end, or nowhere else. */
  lemma MoveLooks(rules: seq<Rule>, now: nat, ledger: seq<Row>, fl: Flight, m: Move, made: seq<P.Attempt>,
                  states: seq<System>, f: nat)
    requires Kept(fl, made) && After(rules, now, ledger, fl, m).Some? && Looked(states, f, fl, made)
    requires var fl' := After(rules, now, ledger, fl, m).value;
      fl'.phase.Ready? ==> LookedAt(states, f, fl'.phase.idx)
    ensures var fl' := After(rules, now, ledger, fl, m).value; Looked(states, f, fl', made + Stamped(fl, fl'))
  {
    var fl' := After(rules, now, ledger, fl, m).value;
    MovesOn(rules, now, ledger, fl, m);
    if fl'.phase.Finished? {
      WithNothing(made);
      EndsWhere(fl, made);
    }
  }

  /** How the attempts stand where a flight may end. */
  lemma EndsWhere(fl: Flight, made: seq<P.Attempt>)
    requires Kept(fl, made)
    ensures (fl.phase.Ready? || fl.phase.Checking?) && Here(fl) == 0 ==> made == []
    ensures fl.phase.Recording? ==> made != [] && made[|made| - 1].status == fl.phase.status
  {
  }

  lemma {:induction false} RunLooks(rules: seq<Rule>, idLength: nat, states: seq<System>, f: nat)
    requires IsRun(rules, idLength, states) && f < |states[|states| - 1].flights|
    ensures Looked(states, f, states[|states| - 1].flights[f], Attempts(states, f))
    decreases |states|
  {
    var n := |states| - 1;
    if n > 0 {
      var front := states[..n];
      var step := StepTo(rules, idLength, states, n);
      var s, t := states[n - 1], states[n];
      FrontIsRun(rules, idLength, states);
      assert front[|front| - 1] == s;
      if t.flights[f].phase.Ready? {
        LookedAtLater(states, f, t.flights[f].phase.idx);
      }
      if f < |s.flights| {
        RunLooks(rules, idLength, front, f);
        RunKeeps(rules, idLength, front, f);
        LookedLater(states, f, s.flights[f], Attempts(front, f));
        if step.Fly? && step.f == f {
          MoveIs(rules, idLength, s, step, t, f);
          MoveLooks(rules, s.now, s.ledger, s.flights[f], step.move, Attempts(front, f), states, f);
        } else {
          OthersStay(rules, idLength, s, step, t, f);
          WithNothing(Attempts(front, f));
        }
      }
    }
  }

  /** MAIN RESULT. A request that ends after a failure (429, 401, 403 or a server error) has stood before
      every one of its candidates, unless it is a stream. */
  lemma EveryCandidateLookedAt(rules: seq<Rule>, idLength: nat, states: seq<System>, f: nat, c: nat)
    requires IsRun(rules, idLength, states) && f < |states[|states| - 1].flights|
    requires var fl, t := states[|states| - 1].flights[f], Attempts(states, f);
      fl.phase.Finished? && !fl.request.streaming && c < |fl.request.plan|
      && t != [] && Failing(t[|t| - 1].status)
    ensures LookedAt(states, f, c)
  {
    RunLooks(rules, idLength, states, f);
  }

  /** A stream makes its one attempt, and only then it may be recording one. */
  predicate Once(fl: Flight) {
    fl.request.streaming ==> fl.attempts <= if fl.phase.Recording? || fl.phase.Finished? then 1 else 0
  }

  lemma {:induction false} RunOnce(rules: seq<Rule>, idLength: nat, states: seq<System>, f: nat, i: nat)
    requires IsRun(rules, idLength, states) && i < |states| && f < |states[i].flights|
    ensures Once(states[i].flights[f])
    decreases i
  {
    if i > 0 {
      var step := StepTo(rules, idLength, states, i);
      if f < |states[i - 1].flights| {
        RunOnce(rules, idLength, states, f, i - 1);
      }
    }
  }

  /** A streaming request is attempted at most once, whatever happens. */
  lemma StreamsTryOnce(rules: seq<Rule>, idLength: nat, states: seq<System>, f: nat)
    requires IsRun(rules, idLength, states) && f < |states[|states| - 1].flights|
    requires states[|states| - 1].flights[f].request.streaming
    ensures |Attempts(states, f)| <= 1
  {
    RunKeeps(rules, idLength, states, f);
    RunOnce(rules, idLength, states, f, |states| - 1);
  }
}
