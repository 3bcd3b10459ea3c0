/** The ledger row by row: what each upstream attempt is charged, and to whom. */
module FlightCharges {
  import opened Text
  import opened Ledger
  import opened Admission
  import L = LedgerCompleteness

  /** Row `r` is what flight `f` owes for the attempt whose reply `m` stamps in state `s`: under the
      attempt's id, to the one who asked and the model that answered, at that moment, for the tokens
      used and at the model's prices. */
  predicate Charges(s: System, f: nat, m: Move, r: Row) {
    && f < |s.flights| && m.Stamp?
    && s.flights[f].phase.Calling? && s.flights[f].phase.idx < |s.flights[f].request.plan|
    && var q, route := s.flights[f].request, s.flights[f].request.plan[s.flights[f].phase.idx];
       && r.requestId == AttemptId(q.id, s.flights[f].attempts + 1)
       && r.user == q.user && r.department == q.department && r.apiKey == q.apiKey
       && r.provider == route.provider && r.model == route.model.route
       && r.tokens == m.total && r.createdAt == s.now
       && IsPrice(r.cost, m.inputTokens, m.outputTokens, route.model)
  }

  /** Flight `f` made move `m` in the `k`-th step. */
  ghost predicate Moved(rules: seq<Rule>, idLength: nat, states: seq<System>, k: nat, f: nat, m: Move) {
    k + 1 < |states| && Next(rules, idLength, states[k], Fly(f, m)) == Some(states[k + 1])
  }

  /** In the ledger, or about to be. */
  predicate Booked(s: System, f: nat, r: Row) {
    r in s.ledger || (f < |s.flights| && s.flights[f].phase.Recording? && s.flights[f].phase.row == r)
  }

  /** A stamp makes a row of its own. */
  lemma StampCharges(rules: seq<Rule>, idLength: nat, s: System, f: nat, m: Move, t: System)
    requires Next(rules, idLength, s, Fly(f, m)) == Some(t) && m.Stamp?
    ensures f < |t.flights| && t.flights[f].phase.Recording? && Charges(s, f, m, t.flights[f].phase.row)
  {
    var route := s.flights[f].request.plan[s.flights[f].phase.idx];
    CostIsPrice(m.inputTokens, m.outputTokens, route.model, t.flights[f].phase.row.cost);
  }

  lemma InsertKeeps(ledger: seq<Row>, row: Row, r: Row)
    requires r in ledger || (r == row && !HasId(ledger, row.requestId))
    ensures r in Insert(ledger, row)
  {
  }

  lemma StepKeepsBooked(rules: seq<Rule>, idLength: nat, s: System, step: Step, t: System, f: nat, r: Row)
    requires Next(rules, idLength, s, step) == Some(t) && Booked(s, f, r)
    requires L.Complete(s.flights, s.ledger, idLength)
    ensures Booked(t, f, r)
  {
    match step
    case Tick(_) =>
    case Arrive(_) =>
    case Fly(g, _) =>
      if s.flights[g].phase.Recording? {
        L.NoConflict(s.flights, s.ledger, idLength, g);
        if r in s.ledger || g == f {
          InsertKeeps(s.ledger, s.flights[g].phase.row, r);
        }
      }
  }

  lemma {:induction false} StaysBooked(rules: seq<Rule>, idLength: nat, states: seq<System>, i: nat, f: nat, r: Row)
    requires IsRun(rules, idLength, states) && i < |states| && Booked(states[i], f, r)
    ensures Booked(states[|states| - 1], f, r)
    decreases |states| - i
  {
    if i + 1 < |states| {
      var step := StepTo(rules, idLength, states, i + 1);
      L.RunComplete(rules, idLength, states, i);
      StepKeepsBooked(rules, idLength, states[i], step, states[i + 1], f, r);
      StaysBooked(rules, idLength, states, i + 1, f, r);
    }
  }

  /** MAIN RESULT. Whatever else happens in between, an attempt that was stamped is charged: a row for
      its tokens, at its model's prices, in its user's, department's, key's, provider's and model's
      name, is in the ledger from then on, or about to be inserted. */
  lemma StampIsCharged(rules: seq<Rule>, idLength: nat, states: seq<System>, k: nat, f: nat, m: Move)
    requires IsRun(rules, idLength, states) && Moved(rules, idLength, states, k, f, m) && m.Stamp?
    ensures exists r :: Charges(states[k], f, m, r) && Booked(states[|states| - 1], f, r)
  {
    StampCharges(rules, idLength, states[k], f, m, states[k + 1]);
    StaysBooked(rules, idLength, states, k + 1, f, states[k + 1].flights[f].phase.row);
  }

  /** Some stamp before the `i`-th state made this row. */
  ghost predicate WasStamped(rules: seq<Rule>, idLength: nat, states: seq<System>, i: nat, r: Row) {
    exists k: nat, f: nat, m ::
      k < i && Moved(rules, idLength, states, k, f, m) && Charges(states[k], f, m, r)
  }

  lemma StillStamped(rules: seq<Rule>, idLength: nat, states: seq<System>, i: nat, r: Row)
    requires WasStamped(rules, idLength, states, i, r)
    ensures WasStamped(rules, idLength, states, i + 1, r)
  {
    var k: nat, f: nat, m :|
      k < i && Moved(rules, idLength, states, k, f, m) && Charges(states[k], f, m, r);
  }

  /** A row booked after a step was booked before it, or has just been stamped. */
  lemma BookedBefore(rules: seq<Rule>, idLength: nat, s: System, step: Step, t: System, f: nat, r: Row)
    requires Next(rules, idLength, s, step) == Some(t) && Booked(t, f, r)
    ensures Booked(s, f, r)
      || (step.Fly? && (Booked(s, step.f, r) || (step.move.Stamp? && Charges(s, step.f, step.move, r))))
  {
    if step.Fly? && step.move.Stamp? {
      StampCharges(rules, idLength, s, step.f, step.move, t);
    }
  }

  /** MAIN RESULT. And nothing else is charged: every row, in the ledger or about to be, is that of an
      attempt stamped in an earlier step. */
  lemma {:induction false} RowsAreStamped(rules: seq<Rule>, idLength: nat, states: seq<System>, i: nat,
                                          f: nat, r: Row)
    requires IsRun(rules, idLength, states) && i < |states| && Booked(states[i], f, r)
    ensures WasStamped(rules, idLength, states, i, r)
    decreases i
  {
    if i > 0 {
      var step := StepTo(rules, idLength, states, i);
      BookedBefore(rules, idLength, states[i - 1], step, states[i], f, r);
      if Booked(states[i - 1], f, r) {
        RowsAreStamped(rules, idLength, states, i - 1, f, r);
        StillStamped(rules, idLength, states, i - 1, r);
      } else if Booked(states[i - 1], step.f, r) {
        RowsAreStamped(rules, idLength, states, i - 1, step.f, r);
        StillStamped(rules, idLength, states, i - 1, r);
      } else {
        assert Moved(rules, idLength, states, i - 1, step.f, step.move);
      }
    }
  }
}
