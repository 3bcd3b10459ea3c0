/** The bound on overshooting cannot be improved: every rule and every load has a run that meets it. */
module AdmissionTightness {
  import opened Text
  import opened Calendar
  import opened Ledger
  import opened Admission
  import opened AdmissionBounds
  import L = LedgerCompleteness

  /** A rule, the load it is put under, the requests that make it up, and the two stretches of time
      that count: a window of the rule, and what a check looks at. */
  datatype Crowd = Crowd(
    rule: Rule, k: nat, quota: nat, most: nat, route: Route, jobs: seq<Request>, window: Span, query: Span)
  {
    /** The one candidate of each job is subject to the rule and costs one micro-dollar a token. */
    ghost predicate Suits(q: Request) {
      |q.id| == |jobs| && q.plan == [route] && !q.streaming && Quota(q) == quota && Applies(rule, q, route)
    }

    ghost predicate Valid() {
      && Attainable(rule, k, quota, most)
      && |jobs| == rule.limit - 1 + k
      && InSpan(0, window) && InSpan(0, query)
      && (forall n: nat :: Cost(n, 0, route.model) == n)
      && (forall j :: 0 <= j < |jobs| ==> Suits(jobs[j]))
      && (forall i, j :: 0 <= i < j < |jobs| ==> jobs[i].id != jobs[j].id)
    }
  }

  /** Quotas are what the retry setting allows, and a request weighs one as such. */
  predicate Attainable(rule: Rule, k: nat, quota: nat, most: nat) {
    && rule.limit > 0 && k >= 1
    && 1 <= quota <= MAX_RETRIES + 1
    && most >= 1 && (rule.measure.Requests? ==> most == 1)
  }

  // ---------------------------------------------------------------- runs, one step at a time

  ghost predicate Reaches(c: Crowd, states: seq<System>, s: System)
    requires c.Valid()
  {
    IsRun([c.rule], |c.jobs|, states) && Load(c.rule, c.k, c.quota, c.most, states) && states[|states| - 1] == s
  }

  ghost predicate Reached(c: Crowd, s: System)
    requires c.Valid()
  {
    exists states :: Reaches(c, states, s)
  }

  /** Time stands still; `done` requests are over with, the others are at most `k`. */
  ghost predicate Crowded(c: Crowd, s: System, done: nat)
    requires c.Valid()
  {
    && s.now == 0
    && done <= |s.flights| <= |c.jobs| && |s.flights| - done <= c.k
    && (forall j :: 0 <= j < |s.flights| ==> s.flights[j].request == c.jobs[j])
    && (forall j :: 0 <= j < done ==> !InFlight(c.rule, s.flights[j]))
    && (forall j :: 0 <= j < |s.flights| && s.flights[j].phase.Recording? ==>
         Weight(c.rule.measure, s.flights[j].phase.row) <= c.most)
  }

  lemma {:induction false} OthersInFlight(rule: Rule, flights: seq<Flight>, done: nat)
    requires done <= |flights|
    requires forall j :: 0 <= j < done ==> !InFlight(rule, flights[j])
    ensures CountInFlight(rule, flights) <= |flights| - done
    decreases |flights|
  {
    if flights != [] {
      OthersInFlight(rule, flights[..|flights| - 1], if done == |flights| then done - 1 else done);
    }
  }

  lemma CrowdLoads(c: Crowd, s: System, done: nat)
    requires c.Valid() && Crowded(c, s, done)
    ensures LoadAt(c.rule, c.k, c.quota, c.most, s.flights)
  {
    OthersInFlight(c.rule, s.flights, done);
  }

  lemma Begins(c: Crowd) returns (s: System)
    requires c.Valid()
    ensures s == System(0, [], []) && Reached(c, s) && Crowded(c, s, 0)
  {
    s := System(0, [], []);
    CrowdLoads(c, s, 0);
    assert Reaches(c, [s], s);
  }

  lemma RunGrows(rules: seq<Rule>, idLength: nat, states: seq<System>, step: Step, t: System)
    requires IsRun(rules, idLength, states)
    requires Next(rules, idLength, states[|states| - 1], step) == Some(t)
    ensures IsRun(rules, idLength, states + [t])
  {
    var longer := states + [t];
    forall i | 0 <= i < |longer| - 1
      ensures Follows(rules, idLength, longer[i], longer[i + 1])
    {
      if i < |states| - 1 {
        assert Follows(rules, idLength, states[i], states[i + 1]);
      } else {
        assert IsStep(rules, idLength, longer[i], step, longer[i + 1]);
      }
    }
  }

  lemma LoadGrows(rule: Rule, k: nat, quota: nat, most: nat, states: seq<System>, t: System)
    requires Load(rule, k, quota, most, states) && LoadAt(rule, k, quota, most, t.flights)
    ensures Load(rule, k, quota, most, states + [t])
  {
  }

  lemma Goes(c: Crowd, s: System, step: Step, t: System, done: nat)
    requires c.Valid() && Reached(c, s) && Crowded(c, t, done)
    requires Next([c.rule], |c.jobs|, s, step) == Some(t)
    ensures Reached(c, t)
  {
    var states: seq<System> :| Reaches(c, states, s);
    CrowdLoads(c, t, done);
    RunGrows([c.rule], |c.jobs|, states, step, t);
    LoadGrows(c.rule, c.k, c.quota, c.most, states, t);
    assert Reaches(c, states + [t], t);
  }

  /** A move that records nothing. */
  lemma Moves(c: Crowd, s: System, done: nat, f: nat, m: Move, fl: Flight) returns (t: System)
    requires c.Valid() && Reached(c, s) && Crowded(c, s, done) && done <= f < |s.flights|
    requires !s.flights[f].phase.Recording?
    requires After([c.rule], 0, s.ledger, s.flights[f], m) == Some(fl)
    requires fl.phase.Recording? ==> Weight(c.rule.measure, fl.phase.row) <= c.most
    ensures t == s.(flights := s.flights[f := fl]) && Reached(c, t) && Crowded(c, t, done)
  {
    t := s.(flights := s.flights[f := fl]);
    L.MoveAttempts([c.rule], 0, s.ledger, s.flights[f], m);
    Goes(c, s, Fly(f, m), t, done);
  }

  /** An insert is never dropped. */
  lemma Records(c: Crowd, s: System, done: nat, f: nat) returns (t: System)
    requires c.Valid() && Reached(c, s) && Crowded(c, s, done) && done <= f < |s.flights|
    requires s.flights[f].phase.Recording?
    ensures var fl := s.flights[f];
      var next := AfterRecord(fl.request, fl.phase.idx, fl.phase.left, fl.phase.status);
      t == System(0, s.ledger + [fl.phase.row], s.flights[f := fl.(phase := next)])
    ensures Reached(c, t) && Crowded(c, t, done)
  {
    var fl := s.flights[f];
    var states: seq<System> :| Reaches(c, states, s);
    L.RunComplete([c.rule], |c.jobs|, states, |states| - 1);
    L.NoConflict(s.flights, s.ledger, |c.jobs|, f);
    var next := AfterRecord(fl.request, fl.phase.idx, fl.phase.left, fl.phase.status);
    t := System(0, s.ledger + [fl.phase.row], s.flights[f := fl.(phase := next)]);
    Goes(c, s, Fly(f, Record), t, done);
  }

  // ---------------------------------------------------------------- what is spent

  /** The window holds `x`, and so does the stretch a check looks at. */
  ghost predicate Spent(c: Crowd, ledger: seq<Row>, x: nat) {
    Total(ledger, c.rule, c.window) == x && Total(ledger, c.rule, c.query) == x
  }

  lemma JobRow(c: Crowd, j: nat, attempt: nat, n: nat, status: int)
    requires c.Valid() && j < |c.jobs| && (c.rule.measure.Requests? ==> n == 1)
    ensures var row := NewRow(c.jobs[j], c.route, attempt, Stamp(n, 0, n, status), 0);
      && Weight(c.rule.measure, row) == n
      && RowWeight(c.rule, c.window, row) == n
      && RowWeight(c.rule, c.query, row) == n
  {
    assert c.Suits(c.jobs[j]);
    NewRowOk(c.jobs[j], 0, attempt, Stamp(n, 0, n, status), 0);
  }

  lemma TwiceSet<T>(s: seq<T>, i: nat, a: T, b: T)
    requires i < |s|
    ensures s[i := a][i := b] == s[i := b]
  {
  }

  lemma JobSpends(c: Crowd, ledger: seq<Row>, x: nat, row: Row, n: nat)
    requires Spent(c, ledger, x)
    requires RowWeight(c.rule, c.window, row) == n && RowWeight(c.rule, c.query, row) == n
    ensures Spent(c, ledger + [row], x + n)
  {
    TotalSnoc(ledger, row, c.rule, c.window);
    TotalSnoc(ledger, row, c.rule, c.query);
  }

  lemma Stamps(c: Crowd, s: System, done: nat, f: nat, n: nat, status: int) returns (t: System, row: Row)
    requires c.Valid() && Reached(c, s) && Crowded(c, s, done) && done <= f < |s.flights|
    requires s.flights[f].phase.Calling? && s.flights[f].phase.idx == 0 && s.flights[f].phase.left > 0
    requires n <= c.most && (c.rule.measure.Requests? ==> n == 1)
    ensures RowWeight(c.rule, c.window, row) == n && RowWeight(c.rule, c.query, row) == n
    ensures var fl := s.flights[f];
      t == s.(flights := s.flights[f :=
        Flight(c.jobs[f], Recording(0, fl.phase.left - 1, row, status), fl.attempts + 1)])
    ensures Reached(c, t) && Crowded(c, t, done)
  {
    var fl := s.flights[f];
    var m := Stamp(n, 0, n, status);
    row := NewRow(c.jobs[f], c.route, fl.attempts + 1, m, 0);
    JobRow(c, f, fl.attempts + 1, n, status);
    t := Moves(c, s, done, f, m, Flight(c.jobs[f], Recording(0, fl.phase.left - 1, row, status), fl.attempts + 1));
  }

  /** One attempt, from the upstream call to the insert. */
  lemma Attempts(c: Crowd, s: System, done: nat, f: nat, n: nat, status: int, x: nat) returns (t: System)
    requires c.Valid() && Reached(c, s) && Crowded(c, s, done) && done <= f < |s.flights|
    requires s.flights[f].phase.Calling? && s.flights[f].phase.idx == 0 && s.flights[f].phase.left > 0
    requires n <= c.most && (c.rule.measure.Requests? ==> n == 1) && Spent(c, s.ledger, x)
    ensures var fl := s.flights[f];
      t.flights == s.flights[f :=
        Flight(c.jobs[f], AfterRecord(c.jobs[f], 0, fl.phase.left - 1, status), fl.attempts + 1)]
    ensures Reached(c, t) && Crowded(c, t, done) && Spent(c, t.ledger, x + n)
  {
    var u, row := Stamps(c, s, done, f, n, status);
    var stamped := u.flights[f];
    assert stamped.request == c.jobs[f] && stamped.phase.row == row;
    t := Records(c, u, done, f);
    TwiceSet(s.flights, f, stamped, t.flights[f]);
    JobSpends(c, s.ledger, x, row, n);
  }

  /** `x`, so many times over. */
  function Over(times: nat, x: nat): nat {
    if times == 0 then 0 else x + Over(times - 1, x)
  }

  lemma {:induction false} OverIsProduct(times: nat, x: nat)
    ensures Over(times, x) == times * x
    decreases times
  {
    if times > 0 {
      OverIsProduct(times - 1, x);
      assert times * x == x + (times - 1) * x;
    }
  }

  /** All attempts of a request fail, each weighing the most. */
  lemma {:induction false} Fails(c: Crowd, s: System, done: nat, f: nat, x: nat) returns (t: System)
    requires c.Valid() && Reached(c, s) && Crowded(c, s, done) && done <= f < |s.flights|
    requires s.flights[f].phase.Calling? && s.flights[f].phase.idx == 0 && s.flights[f].phase.left > 0
    requires Spent(c, s.ledger, x)
    ensures Reached(c, t) && Crowded(c, t, done)
    ensures |t.flights| == |s.flights| && t.flights == s.flights[f := t.flights[f]]
    ensures Spent(c, t.ledger, x + Over(s.flights[f].phase.left, c.most))
    decreases s.flights[f].phase.left
  {
    var left := s.flights[f].phase.left;
    t := Attempts(c, s, done, f, c.most, 500, x);
    if left > 1 {
      t := Fails(c, t, done, f, x + c.most);
    }
  }

  // ---------------------------------------------------------------- the run

  /** A new request arrives and passes its check. */
  lemma Checks(c: Crowd, s: System, done: nat, x: nat) returns (t: System)
    requires c.Valid() && Reached(c, s) && Crowded(c, s, done)
    requires |s.flights| < |c.jobs| && |s.flights| - done < c.k
    requires Spent(c, s.ledger, x) && x < c.rule.limit && c.query == QuerySpan(c.rule, 0)
    ensures t.flights == s.flights + [Flight(c.jobs[|s.flights|], Checking(0, [], 0), 0)]
    ensures t.ledger == s.ledger && Reached(c, t) && Crowded(c, t, done)
  {
    var n := |s.flights|;
    var q := c.jobs[n];
    t := Arrives(c, s, done);
    Asks(c, n);
    t := Moves(c, t, done, n, Consider, Flight(q, Checking(0, [c.rule], 0), 0));
    assert [c.rule][1..] == [];
    t := Moves(c, t, done, n, Check, Flight(q, Checking(0, [], 0), 0));
  }

  lemma Arrives(c: Crowd, s: System, done: nat) returns (t: System)
    requires c.Valid() && Reached(c, s) && Crowded(c, s, done)
    requires |s.flights| < |c.jobs| && |s.flights| - done < c.k
    ensures t == s.(flights := s.flights + [Flight(c.jobs[|s.flights|], Ready(0), 0)])
    ensures Reached(c, t) && Crowded(c, t, done)
  {
    var n := |s.flights|;
    t := s.(flights := s.flights + [Flight(c.jobs[n], Ready(0), 0)]);
    forall fl | fl in s.flights ensures fl.request.id != c.jobs[n].id {
      var j :| 0 <= j < n && s.flights[j] == fl;
    }
    Goes(c, s, Arrive(c.jobs[n]), t, done);
  }

  lemma Asks(c: Crowd, j: nat)
    requires c.Valid() && j < |c.jobs|
    ensures ChecksFor([c.rule], c.jobs[j], c.route) == [c.rule]
  {
    assert c.Suits(c.jobs[j]);
    assert [c.rule][..0] == [];
  }

  lemma Admits(c: Crowd, s: System, done: nat, f: nat) returns (t: System)
    requires c.Valid() && Reached(c, s) && Crowded(c, s, done) && done <= f < |s.flights|
    requires s.flights[f] == Flight(c.jobs[f], Checking(0, [], 0), 0)
    ensures t == s.(flights := s.flights[f := Flight(c.jobs[f], Calling(0, c.quota), 0)])
    ensures Reached(c, t) && Crowded(c, t, done)
  {
    t := Moves(c, s, done, f, Admit, Flight(c.jobs[f], Calling(0, c.quota), 0));
  }

  /** One request is served, weighing one. */
  lemma Serves(c: Crowd, s: System, m: nat) returns (t: System)
    requires c.Valid() && c.query == QuerySpan(c.rule, 0) && m + 1 < c.rule.limit
    requires Reached(c, s) && Crowded(c, s, m) && |s.flights| == m && Spent(c, s.ledger, m)
    ensures Reached(c, t) && Crowded(c, t, m + 1) && |t.flights| == m + 1 && Spent(c, t.ledger, m + 1)
  {
    var u := Checks(c, s, m, m);
    var v := Admits(c, u, m, m);
    t := Attempts(c, v, m, m, 1, 200, m);
  }

  /** `m` requests are served one after the other. */
  lemma {:induction false} ServesAll(c: Crowd, m: nat) returns (s: System)
    requires c.Valid() && c.query == QuerySpan(c.rule, 0) && m < c.rule.limit
    ensures Reached(c, s) && Crowded(c, s, m) && |s.flights| == m && Spent(c, s.ledger, m)
    decreases m
  {
    if m == 0 {
      s := Begins(c);
    } else {
      var t := ServesAll(c, m - 1);
      s := Serves(c, t, m - 1);
    }
  }

  ghost predicate Waiting(c: Crowd, s: System, from: nat)
    requires c.Valid()
  {
    forall j :: from <= j < |s.flights| ==> j < |c.jobs| && s.flights[j] == Flight(c.jobs[j], Checking(0, [], 0), 0)
  }

  /** Then `m` more pass their checks before any of them spends. */
  lemma {:induction false} Gathers(c: Crowd, m: nat) returns (s: System)
    requires c.Valid() && c.query == QuerySpan(c.rule, 0) && m <= c.k
    ensures var n := c.rule.limit - 1;
      && Reached(c, s) && Crowded(c, s, n) && |s.flights| == n + m
      && Spent(c, s.ledger, n) && Waiting(c, s, n)
    decreases m
  {
    var n := c.rule.limit - 1;
    if m == 0 {
      s := ServesAll(c, n);
    } else {
      var t := Gathers(c, m - 1);
      s := Checks(c, t, n, n);
    }
  }

  /** All are checked, the first `f` are through, and `x` is spent. */
  ghost predicate Through(c: Crowd, s: System, f: nat, x: nat) {
    && c.Valid()
    && Reached(c, s) && Crowded(c, s, c.rule.limit - 1) && |s.flights| == |c.jobs|
    && Waiting(c, s, f) && Spent(c, s.ledger, x)
  }

  /** One more fails as often as it may. */
  lemma Overspends(c: Crowd, s: System, f: nat, x: nat) returns (t: System)
    requires Through(c, s, f, x) && c.rule.limit - 1 <= f < |c.jobs|
    ensures Through(c, t, f + 1, x + Over(c.quota, c.most))
  {
    var n := c.rule.limit - 1;
    var u := Admits(c, s, n, f);
    t := Fails(c, u, n, f, x);
  }

  ghost predicate Possible(c: Crowd, f: nat, x: nat) {
    exists s :: Through(c, s, f, x)
  }

  /** Then the `m` that still wait fail as often as they may. */
  lemma {:induction false} Overshoots(c: Crowd, f: nat, m: nat, x: nat, each: nat, last: nat, y: nat)
    requires Possible(c, f, x) && c.rule.limit - 1 <= f && each == Over(c.quota, c.most)
    requires f + m == last == |c.jobs| && y == x + Over(m, each)
    ensures Possible(c, last, y)
    decreases m
  {
    if m > 0 {
      OneOvershoots(c, f, x);
      Overshoots(c, f + 1, m - 1, x + each, each, last, y);
    }
  }

  lemma OneOvershoots(c: Crowd, f: nat, x: nat)
    requires Possible(c, f, x) && c.rule.limit - 1 <= f < |c.jobs|
    ensures Possible(c, f + 1, x + Over(c.quota, c.most))
  {
    var s :| Through(c, s, f, x);
    var t := Overspends(c, s, f, x);
  }

  /** The `j`-th of `n` ids of length `n`. */
  function BaseId(n: nat, j: nat): string {
    seq(n, i => if i == j then '1' else '0')
  }

  lemma BaseIdsDiffer(n: nat, i: nat, j: nat)
    requires i < j < n
    ensures BaseId(n, i) != BaseId(n, j)
  {
    assert BaseId(n, i)[j] == '0' && BaseId(n, j)[j] == '1';
  }

  lemma Overshot(c: Crowd) returns (s: System)
    requires c.Valid() && c.query == QuerySpan(c.rule, 0)
    ensures Through(c, s, |c.jobs|, c.rule.limit - 1 + Over(c.k, Over(c.quota, c.most)))
  {
    var n := c.rule.limit - 1;
    var gathered := Gathers(c, c.k);
    assert Through(c, gathered, n, n);
    Overshoots(c, n, c.k, n, Over(c.quota, c.most), |c.jobs|, n + Over(c.k, Over(c.quota, c.most)));
    s :| Through(c, s, |c.jobs|, n + Over(c.k, Over(c.quota, c.most)));
  }

  lemma Regroup(a: nat, b: nat, c: nat)
    ensures a * (b * c) == a * b * c
  {
  }

  lemma Attains(c: Crowd) returns (states: seq<System>)
    requires c.Valid() && c.query == QuerySpan(c.rule, 0)
    ensures IsRun([c.rule], |c.jobs|, states) && Load(c.rule, c.k, c.quota, c.most, states)
    ensures Total(states[|states| - 1].ledger, c.rule, c.window) == c.rule.limit - 1 + Over(c.k, Over(c.quota, c.most))
  {
    var s := Overshot(c);
    states :| Reaches(c, states, s);
  }

  function Target(scope: Scope): Route {
    Route(Model(if scope.ModelScope? then scope.model else "m", 1_000_000, 0),
          if scope.ProviderScope? then scope.provider else "p")
  }

  function Job(scope: Scope, id: string, retryAttempts: int): Request {
    Request(id, if scope.UserScope? then scope.user else "u",
            if scope.DepartmentScope? then scope.department else "d",
            if scope.ApiKeyScope? then scope.apiKey else "k", [Target(scope)], retryAttempts, false)
  }

  lemma FirstMonth()
    ensures MonthOf(0) == 0 && MonthStart(0) == 0 && MonthStart(1) >= 1
  {
    NextStart(0);
    OneMonth(0, 0);
  }

  /** The window of a rule that begins with time. */
  function FirstWindow(rule: Rule): Span {
    if rule.period.SlidingMinute? then Between(0, MINUTE) else Between(MonthStart(0), MonthStart(1) - 1)
  }

  lemma BeginsInside(rule: Rule)
    ensures RuleWindow(rule, FirstWindow(rule)) && InSpan(0, FirstWindow(rule)) && InSpan(0, QuerySpan(rule, 0))
  {
    FirstMonth();
  }

  /** Every rule can be put under every load. */
  lemma CrowdExists(rule: Rule, k: nat, quota: nat, most: nat) returns (c: Crowd)
    requires Attainable(rule, k, quota, most)
    ensures c.Valid() && c.rule == rule && c.k == k && c.quota == quota && c.most == most
    ensures c.window == FirstWindow(rule) && c.query == QuerySpan(rule, 0)
  {
    var n := rule.limit - 1 + k;
    BeginsInside(rule);
    var jobs := seq(n, j requires 0 <= j < n => Job(rule.scope, BaseId(n, j), quota - 1));
    c := Crowd(rule, k, quota, most, Target(rule.scope), jobs, FirstWindow(rule), QuerySpan(rule, 0));
    forall i, j | 0 <= i < j < n ensures jobs[i].id != jobs[j].id {
      BaseIdsDiffer(n, i, j);
    }
  }

  /** MAIN RESULT. The bound cannot be improved: for every rule, every number of requests in
      flight, every quota retries allow and every weight there is a run under that load in which
      a window of the rule holds exactly the limit less one plus what those requests can add. */
  lemma BoundIsAttained(rule: Rule, k: nat, quota: nat, most: nat)
    requires Attainable(rule, k, quota, most)
    ensures exists states: seq<System>, idLength: nat, w: Span ::
      && IsRun([rule], idLength, states) && Load(rule, k, quota, most, states) && RuleWindow(rule, w)
      && Total(states[|states| - 1].ledger, rule, w) == rule.limit - 1 + k * quota * most
  {
    var c := CrowdExists(rule, k, quota, most);
    var states := Attains(c);
    BeginsInside(rule);
    OverIsProduct(quota, most);
    OverIsProduct(k, quota * most);
    Regroup(k, quota, most);
    assert IsRun([rule], |c.jobs|, states) && Load(rule, k, quota, most, states) && RuleWindow(rule, c.window);
  }
}
