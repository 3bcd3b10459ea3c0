/** Every upstream attempt leaves exactly one row in the ledger. */
module LedgerCompleteness {
  import opened Ledger
  import opened Admission

  /** Attempts whose row has been inserted: all but the one still being recorded. */
  function Recorded(fl: Flight): nat {
    if fl.phase.Recording? && fl.attempts > 0 then fl.attempts - 1 else fl.attempts
  }

  function RecordedSum(flights: seq<Flight>): nat {
    if flights == [] then 0
    else RecordedSum(flights[..|flights| - 1]) + Recorded(flights[|flights| - 1])
  }

  function AttemptSum(flights: seq<Flight>): nat {
    if flights == [] then 0
    else AttemptSum(flights[..|flights| - 1]) + flights[|flights| - 1].attempts
  }

  lemma {:induction false} RecordedSumUpdate(flights: seq<Flight>, f: nat, fl: Flight)
    requires f < |flights|
    ensures RecordedSum(flights[f := fl]) + Recorded(flights[f]) == RecordedSum(flights) + Recorded(fl)
    decreases |flights|
  {
    var n := |flights| - 1;
    if f == n {
      assert flights[f := fl][..n] == flights[..n];
    } else {
      RecordedSumUpdate(flights[..n], f, fl);
      assert flights[f := fl][..n] == flights[..n][f := fl];
    }
  }

  /** Row `id` belongs to attempt `n` of flight `j`. */
  predicate IsAttempt(flights: seq<Flight>, j: nat, n: nat, id: string) {
    j < |flights| && 1 <= n <= Recorded(flights[j]) && id == AttemptId(flights[j].request.id, n)
  }

  /** Base ids have one length and differ from request to request. */
  ghost predicate DistinctIds(flights: seq<Flight>, idLength: nat) {
    && (forall i :: 0 <= i < |flights| ==> |flights[i].request.id| == idLength)
    && (forall i, j :: 0 <= i < j < |flights| ==> flights[i].request.id != flights[j].request.id)
  }

  ghost predicate RowsStamped(flights: seq<Flight>) {
    forall i :: 0 <= i < |flights| && flights[i].phase.Recording? ==>
      flights[i].attempts > 0
      && flights[i].phase.row.requestId == AttemptId(flights[i].request.id, flights[i].attempts)
  }

  ghost predicate RowsAreAttempts(flights: seq<Flight>, ledger: seq<Row>) {
    forall r :: r in ledger ==> exists j: nat, n: nat :: IsAttempt(flights, j, n, r.requestId)
  }

  ghost predicate AttemptsHaveRows(flights: seq<Flight>, ledger: seq<Row>) {
    forall j: nat, n: nat, id: string :: IsAttempt(flights, j, n, id) ==> HasId(ledger, id)
  }

  ghost predicate RowsDiffer(ledger: seq<Row>) {
    forall a, b :: 0 <= a < b < |ledger| ==> ledger[a].requestId != ledger[b].requestId
  }

  /** Recorded attempts and rows correspond one to one. */
  ghost predicate Complete(flights: seq<Flight>, ledger: seq<Row>, idLength: nat) {
    && DistinctIds(flights, idLength)
    && RowsStamped(flights)
    && RowsAreAttempts(flights, ledger)
    && AttemptsHaveRows(flights, ledger)
    && RowsDiffer(ledger)
    && |ledger| == RecordedSum(flights)
  }

  /** The id of an attempt being recorded is new: no conflict can drop its row. */
  lemma NoConflict(flights: seq<Flight>, ledger: seq<Row>, idLength: nat, f: nat)
    requires Complete(flights, ledger, idLength) && f < |flights| && flights[f].phase.Recording?
    ensures !HasId(ledger, flights[f].phase.row.requestId)
  {
    var fl := flights[f];
    if HasId(ledger, fl.phase.row.requestId) {
      var r :| r in ledger && r.requestId == fl.phase.row.requestId;
      var j: nat, n: nat :| IsAttempt(flights, j, n, r.requestId);
      AttemptIdInjective(flights[j].request.id, n, fl.request.id, fl.attempts);
      assert false;
    }
  }

  lemma OtherAttempts(flights: seq<Flight>, f: nat, fl: Flight, j: nat, n: nat, id: string)
    requires f < |flights| && fl.request == flights[f].request
    requires Recorded(flights[f]) <= Recorded(fl)
    ensures IsAttempt(flights, j, n, id) ==> IsAttempt(flights[f := fl], j, n, id)
    ensures IsAttempt(flights[f := fl], j, n, id) && !(j == f && n > Recorded(flights[f]))
      ==> IsAttempt(flights, j, n, id)
  {
  }

  lemma RecordKeepsRows(flights: seq<Flight>, ledger: seq<Row>, f: nat, fl: Flight, row: Row)
    requires RowsAreAttempts(flights, ledger) && f < |flights| && fl.request == flights[f].request
    requires Recorded(flights[f]) < Recorded(fl)
    requires row.requestId == AttemptId(fl.request.id, Recorded(fl))
    ensures RowsAreAttempts(flights[f := fl], ledger + [row])
  {
    var flights' := flights[f := fl];
    forall r | r in ledger + [row]
      ensures exists j: nat, n: nat :: IsAttempt(flights', j, n, r.requestId)
    {
      if r in ledger {
        var j: nat, n: nat :| IsAttempt(flights, j, n, r.requestId);
        OtherAttempts(flights, f, fl, j, n, r.requestId);
      } else {
        assert IsAttempt(flights', f, Recorded(fl), row.requestId);
      }
    }
  }

  lemma HasIdSnoc(ledger: seq<Row>, row: Row, id: string)
    ensures HasId(ledger + [row], id) <==> HasId(ledger, id) || row.requestId == id
  {
    if HasId(ledger, id) {
      var r :| r in ledger && r.requestId == id;
      assert r in ledger + [row];
    }
    assert row in ledger + [row];
  }

  lemma RecordKeepsAttempts(flights: seq<Flight>, ledger: seq<Row>, f: nat, fl: Flight, row: Row)
    requires AttemptsHaveRows(flights, ledger) && f < |flights| && fl.request == flights[f].request
    requires Recorded(fl) == Recorded(flights[f]) + 1
    requires row.requestId == AttemptId(fl.request.id, Recorded(fl))
    ensures AttemptsHaveRows(flights[f := fl], ledger + [row])
  {
    var flights' := flights[f := fl];
    forall j: nat, n: nat, id | IsAttempt(flights', j, n, id) ensures HasId(ledger + [row], id) {
      HasIdSnoc(ledger, row, id);
      if !(j == f && n == Recorded(fl)) {
        OtherAttempts(flights, f, fl, j, n, id);
      }
    }
  }

  lemma NewRowDiffers(ledger: seq<Row>, row: Row)
    requires RowsDiffer(ledger) && !HasId(ledger, row.requestId)
    ensures RowsDiffer(ledger + [row])
  {
    var ledger' := ledger + [row];
    forall a, b | 0 <= a < b < |ledger'| ensures ledger'[a].requestId != ledger'[b].requestId {
      assert ledger'[a] in ledger;
    }
  }

  /** Whatever is inserted, no request id is there twice, and what was there stays. */
  lemma InsertKeepsUnique(ledger: seq<Row>, row: Row)
    requires RowsDiffer(ledger)
    ensures RowsDiffer(Insert(ledger, row)) && ledger <= Insert(ledger, row)
    ensures HasId(Insert(ledger, row), row.requestId)
  {
    if !HasId(ledger, row.requestId) {
      NewRowDiffers(ledger, row);
      HasIdSnoc(ledger, row, row.requestId);
    }
  }

  lemma ReplaceFlight(flights: seq<Flight>, idLength: nat, f: nat, fl: Flight)
    requires f < |flights| && fl.request == flights[f].request
    requires DistinctIds(flights, idLength) && RowsStamped(flights)
    requires fl.phase.Recording? ==>
      fl.attempts > 0 && fl.phase.row.requestId == AttemptId(fl.request.id, fl.attempts)
    ensures DistinctIds(flights[f := fl], idLength) && RowsStamped(flights[f := fl])
  {
  }

  /** Recording: one more attempt, one more row. */
  lemma RecordComplete(flights: seq<Flight>, ledger: seq<Row>, idLength: nat, f: nat, fl: Flight)
    requires Complete(flights, ledger, idLength) && f < |flights| && flights[f].phase.Recording?
    requires fl.request == flights[f].request && fl.attempts == flights[f].attempts
    requires !fl.phase.Recording?
    ensures Complete(flights[f := fl], Insert(ledger, flights[f].phase.row), idLength)
  {
    var row := flights[f].phase.row;
    NoConflict(flights, ledger, idLength, f);
    assert Insert(ledger, row) == ledger + [row];
    ReplaceFlight(flights, idLength, f, fl);
    RecordedSumUpdate(flights, f, fl);
    RecordKeepsRows(flights, ledger, f, fl, row);
    RecordKeepsAttempts(flights, ledger, f, fl, row);
    NewRowDiffers(ledger, row);
  }

  /** Any other move: the same attempts, the same rows. */
  lemma QuietComplete(flights: seq<Flight>, ledger: seq<Row>, idLength: nat, f: nat, fl: Flight)
    requires Complete(flights, ledger, idLength) && f < |flights|
    requires fl.request == flights[f].request && Recorded(fl) == Recorded(flights[f])
    requires fl.phase.Recording? ==>
      fl.attempts > 0 && fl.phase.row.requestId == AttemptId(fl.request.id, fl.attempts)
    ensures Complete(flights[f := fl], ledger, idLength)
  {
    RecordedSumUpdate(flights, f, fl);
    ReplaceFlight(flights, idLength, f, fl);
    var flights' := flights[f := fl];
    forall r | r in ledger ensures exists j: nat, n: nat :: IsAttempt(flights', j, n, r.requestId) {
      var j: nat, n: nat :| IsAttempt(flights, j, n, r.requestId);
      OtherAttempts(flights, f, fl, j, n, r.requestId);
    }
    forall j: nat, n: nat, id | IsAttempt(flights', j, n, id) ensures HasId(ledger, id) {
      OtherAttempts(flights, f, fl, j, n, id);
    }
  }

  lemma ArriveComplete(flights: seq<Flight>, ledger: seq<Row>, idLength: nat, q: Request)
    requires Complete(flights, ledger, idLength) && |q.id| == idLength
    requires forall fl :: fl in flights ==> fl.request.id != q.id
    ensures Complete(flights + [Flight(q, Ready(0), 0)], ledger, idLength)
  {
    var flights' := flights + [Flight(q, Ready(0), 0)];
    assert flights'[..|flights|] == flights;
    forall r | r in ledger ensures exists j: nat, n: nat :: IsAttempt(flights', j, n, r.requestId) {
      var j: nat, n: nat :| IsAttempt(flights, j, n, r.requestId);
      assert IsAttempt(flights', j, n, r.requestId);
    }
    forall j: nat, n: nat, id | IsAttempt(flights', j, n, id) ensures HasId(ledger, id) {
      assert IsAttempt(flights, j, n, id);
    }
  }

  /** What a move does to the attempts and the row of its flight. */
  lemma MoveAttempts(rules: seq<Rule>, now: nat, ledger: seq<Row>, fl: Flight, m: Move)
    requires After(rules, now, ledger, fl, m).Some?
    ensures var fl' := After(rules, now, ledger, fl, m).value;
      && fl'.request == fl.request
      && (fl.phase.Recording? ==> m.Record? && !fl'.phase.Recording? && fl'.attempts == fl.attempts)
      && (!fl.phase.Recording? ==> Recorded(fl') == Recorded(fl))
      && (fl'.phase.Recording? ==>
           fl'.attempts > 0 && fl'.phase.row.requestId == AttemptId(fl'.request.id, fl'.attempts))
  {
  }

  lemma NextComplete(rules: seq<Rule>, idLength: nat, s: System, step: Step)
    requires Complete(s.flights, s.ledger, idLength) && Next(rules, idLength, s, step).Some?
    ensures var t := Next(rules, idLength, s, step).value; Complete(t.flights, t.ledger, idLength)
  {
    match step
    case Tick(_) =>
    case Arrive(q) => ArriveComplete(s.flights, s.ledger, idLength, q);
    case Fly(f, m) =>
      MoveAttempts(rules, s.now, s.ledger, s.flights[f], m);
      var fl := After(rules, s.now, s.ledger, s.flights[f], m).value;
      if s.flights[f].phase.Recording? {
        RecordComplete(s.flights, s.ledger, idLength, f, fl);
      } else {
        QuietComplete(s.flights, s.ledger, idLength, f, fl);
      }
  }

  lemma {:induction false} RunComplete(rules: seq<Rule>, idLength: nat, states: seq<System>, i: nat)
    requires IsRun(rules, idLength, states) && i < |states|
    ensures Complete(states[i].flights, states[i].ledger, idLength)
    decreases i
  {
    if i > 0 {
      RunComplete(rules, idLength, states, i - 1);
      var step := StepTo(rules, idLength, states, i);
      NextComplete(rules, idLength, states[i - 1], step);
    }
  }

  lemma {:induction false} NothingPending(flights: seq<Flight>)
    requires forall fl :: fl in flights ==> !fl.phase.Recording?
    ensures RecordedSum(flights) == AttemptSum(flights)
    decreases |flights|
  {
    if flights != [] {
      assert flights[|flights| - 1] in flights;
      NothingPending(flights[..|flights| - 1]);
    }
  }

  /** MAIN RESULT. In every interleaving no insert is ever dropped as a duplicate: each recorded
      attempt has its row, every row is some request's attempt, ids never repeat, and whenever no
      attempt is being recorded the ledger has exactly as many rows as there were attempts. */
  lemma LedgerIsComplete(rules: seq<Rule>, idLength: nat, states: seq<System>, i: nat)
    requires IsRun(rules, idLength, states) && i < |states|
    ensures Complete(states[i].flights, states[i].ledger, idLength)
    ensures (forall fl :: fl in states[i].flights ==> !fl.phase.Recording?)
      ==> |states[i].ledger| == AttemptSum(states[i].flights)
  {
    RunComplete(rules, idLength, states, i);
    if forall fl :: fl in states[i].flights ==> !fl.phase.Recording? {
      NothingPending(states[i].flights);
    }
  }
}
