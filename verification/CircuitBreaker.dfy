/** Provider rows of the store, and the circuit breaker kept in them. */
module CircuitBreaker {
  import opened Text
  import opened Calendar
  import opened Upstream

  datatype Health = Unknown | Healthy | Degraded | Down

  datatype Provider = Provider(
    health: Health, failures: nat, lastError: string, openUntil: Option<int>, checkedAt: Option<int>)

  /** The row of a provider nobody reported on yet. */
  const FRESH := Provider(Unknown, 0, "", None, None)

  const FAILURE_THRESHOLD := 3
  const CIRCUIT_COOLDOWN := 5 * MINUTE

  /** `limitProviderError` */
  function LimitError(text: string): (r: string)
    ensures r <= Trim(text) && |r| <= 1000
    ensures |r| < 1000 ==> r == Trim(text)
  {
    var t := Trim(text);
    if |t| <= 1000 then t else t[..1000]
  }

  function Threshold(threshold: int): (t: nat)
    ensures t > 0
  {
    if threshold <= 0 then 3 else threshold
  }

  function Cooldown(cooldown: int): (c: nat)
    ensures c > 0
  {
    if cooldown <= 0 then 5 * MINUTE else cooldown
  }

  function Succeeded(now: int): Provider {
    Provider(Healthy, 0, "", None, Some(now))
  }

  function Failed(p: Provider, threshold: nat, cooldown: nat, now: int, error: string): Provider {
    var n := p.failures + 1;
    if n >= threshold then Provider(Down, n, LimitError(error), Some(now + cooldown), Some(now))
    else Provider(Degraded, n, LimitError(error), None, Some(now))
  }

  /** The outcome of one upstream call, as it reaches the store. */
  datatype Report = Report(provider: string, status: int, error: string, at: int)

  /** The rows after a report; a provider without a row is reported on in vain. */
  function Reported(rows: map<string, Provider>, r: Report, threshold: nat, cooldown: nat): map<string, Provider> {
    if r.provider !in rows then rows
    else
      rows[r.provider :=
        if IsFailure(r.status) then Failed(rows[r.provider], threshold, cooldown, r.at, r.error)
        else Succeeded(r.at)]
  }

  function After(rows: map<string, Provider>, history: seq<Report>, threshold: nat, cooldown: nat):
      map<string, Provider>
  {
    if history == [] then rows
    else
      var before := After(rows, history[..|history| - 1], threshold, cooldown);
      Reported(before, history[|history| - 1], threshold, cooldown)
  }

  class ProviderStore {
    var rows: map<string, Provider>

    method RecordProviderSuccess(id: string, now: int) returns (found: bool)
      modifies this
      ensures found == (id in old(rows))
      ensures rows == if found then old(rows)[id := Succeeded(now)] else old(rows)
    {
      found := id in rows;
      if found {
        rows := rows[id := rows[id].(health := Healthy, failures := 0, lastError := "", openUntil := None,
                                     checkedAt := Some(now))];
      }
    }

    method RecordProviderFailure(id: string, threshold: int, cooldown: int, now: int, errText: string)
      returns (provider: Option<Provider>)
      modifies this
      ensures rows == if id in old(rows)
        then old(rows)[id := Failed(old(rows)[id], Threshold(threshold), Cooldown(cooldown), now, errText)]
        else old(rows)
      ensures provider == if id in old(rows) then Some(rows[id]) else None
      ensures id in old(rows) && threshold > 0 && cooldown > 0 ==>
        rows[id].failures == old(rows)[id].failures + 1
        && rows[id].openUntil == if rows[id].failures >= threshold then Some(now + cooldown) else None
      ensures id in old(rows) && threshold <= 0 && cooldown <= 0 ==>
        rows[id].failures == old(rows)[id].failures + 1
        && rows[id].openUntil == if rows[id].failures >= 3 then Some(now + 300_000_000_000) else None
    {
      var limit, wait := threshold, cooldown;
      if limit <= 0 {
        limit := 3;
      }
      if wait <= 0 {
        wait := 5 * MINUTE;
      }
      if id !in rows {
        return None;
      }
      var failures := rows[id].failures + 1;
      var status, circuit := Degraded, None;
      if failures >= limit {
        status, circuit := Down, Some(now + wait);
      }
      rows := rows[id := rows[id].(health := status, failures := failures, lastError := LimitError(errText),
                                   openUntil := circuit, checkedAt := Some(now))];
      provider := Some(rows[id]);
    }

    method RecordProviderOutcome(id: string, statusCode: int, errText: string, now: int)
      modifies this
      ensures rows == Reported(old(rows), Report(id, statusCode, errText, now), FAILURE_THRESHOLD, CIRCUIT_COOLDOWN)
      ensures id in old(rows) && (statusCode in {429, 401, 403} || statusCode >= 500) ==>
        id in rows && rows[id].failures == old(rows)[id].failures + 1 && rows[id].checkedAt == Some(now)
        && (rows[id].openUntil == if rows[id].failures >= 3 then Some(now + 300_000_000_000) else None)
        && (rows[id].health == if rows[id].failures >= 3 then Down else Degraded)
      ensures id in old(rows) && !(statusCode in {429, 401, 403} || statusCode >= 500) ==>
        id in rows && rows[id] == Provider(Healthy, 0, "", None, Some(now))
    {
      if IsFailure(statusCode) {
        var _ := RecordProviderFailure(id, FAILURE_THRESHOLD, CIRCUIT_COOLDOWN, now, errText);
      } else {
        var _ := RecordProviderSuccess(id, now);
      }
    }
  }

  // ---------------------------------------------------------------- the circuit is its history

  /** The reports on `id` after its last success: failures all. */
  function SinceSuccess(history: seq<Report>, id: string): (r: seq<Report>)
    ensures |r| <= |history|
    ensures forall i :: 0 <= i < |r| ==> r[i].provider == id && IsFailure(r[i].status)
  {
    if history == [] then []
    else
      var last := history[|history| - 1];
      var before := SinceSuccess(history[..|history| - 1], id);
      if last.provider != id then before else if IsFailure(last.status) then before + [last] else []
  }

  predicate Mentions(history: seq<Report>, id: string) {
    exists i :: 0 <= i < |history| && history[i].provider == id
  }

  /** What the row must say, from the history alone. */
  predicate Agrees(p: Provider, history: seq<Report>, id: string, threshold: nat, cooldown: nat)
    requires threshold > 0
  {
    var failed := SinceSuccess(history, id);
    && p.failures == |failed|
    && p.openUntil == (if |failed| < threshold then None else Some(failed[|failed| - 1].at + cooldown))
    && p.health ==
         (if !Mentions(history, id) then Unknown
          else if failed == [] then Healthy
          else if |failed| < threshold then Degraded
          else Down)
  }

  /** And what it notes beside: the last error since the last success, and when the last report came. */
  predicate Notes(p: Provider, history: seq<Report>, id: string) {
    var failed := SinceSuccess(history, id);
    && p.lastError == (if failed == [] then "" else LimitError(failed[|failed| - 1].error))
    && p.checkedAt == LastCheck(history, id)
  }

  /** When the provider was last reported on. */
  function LastCheck(history: seq<Report>, id: string): Option<int> {
    if history == [] then None
    else if history[|history| - 1].provider == id then Some(history[|history| - 1].at)
    else LastCheck(history[..|history| - 1], id)
  }

  lemma MentionsSnoc(history: seq<Report>, id: string)
    requires history != []
    ensures Mentions(history, id)
      <==> Mentions(history[..|history| - 1], id) || history[|history| - 1].provider == id
  {
    var front := history[..|history| - 1];
    if Mentions(front, id) {
      var i :| 0 <= i < |front| && front[i].provider == id;
      assert history[i].provider == id;
    }
    if Mentions(history, id) && history[|history| - 1].provider != id {
      var i :| 0 <= i < |history| && history[i].provider == id;
      assert front[i].provider == id;
    }
  }

  lemma AgreesStep(rows: map<string, Provider>, front: seq<Report>, last: Report, id: string,
                   threshold: nat, cooldown: nat)
    requires id in rows && threshold > 0 && Agrees(rows[id], front, id, threshold, cooldown)
    ensures var after := Reported(rows, last, threshold, cooldown);
      id in after && Agrees(after[id], front + [last], id, threshold, cooldown)
  {
    MentionsSnoc(front + [last], id);
    SinceSuccessSnoc(front, last, id);
  }

  lemma NotesStep(rows: map<string, Provider>, front: seq<Report>, last: Report, id: string,
                  threshold: nat, cooldown: nat)
    requires id in rows && Notes(rows[id], front, id)
    ensures var after := Reported(rows, last, threshold, cooldown);
      id in after && Notes(after[id], front + [last], id)
  {
    SinceSuccessSnoc(front, last, id);
    WithoutLast(front, last);
  }

  lemma SinceSuccessSnoc(front: seq<Report>, last: Report, id: string)
    ensures SinceSuccess(front + [last], id)
      == if last.provider != id then SinceSuccess(front, id)
         else if IsFailure(last.status) then SinceSuccess(front, id) + [last] else []
  {
    assert (front + [last])[..|front|] == front;
  }

  /** MAIN RESULT. After any outcomes on any providers, in whatever order they were stored, the row of
      each provider counts its failures since its last success, and its circuit ends one cooldown
      after the last of them once there are as many as the threshold. */
  lemma {:induction false} RowsAreHistory(rows: map<string, Provider>, history: seq<Report>, id: string,
                                          threshold: nat, cooldown: nat)
    requires id in rows && rows[id] == FRESH && threshold > 0
    ensures var after := After(rows, history, threshold, cooldown);
      id in after && Agrees(after[id], history, id, threshold, cooldown) && Notes(after[id], history, id)
    decreases |history|
  {
    if history != [] {
      var front, last := history[..|history| - 1], history[|history| - 1];
      RowsAreHistory(rows, front, id, threshold, cooldown);
      AgreesStep(After(rows, front, threshold, cooldown), front, last, id, threshold, cooldown);
      NotesStep(After(rows, front, threshold, cooldown), front, last, id, threshold, cooldown);
      assert history == front + [last];
    }
  }

  /** MAIN RESULT. A circuit is open at `t` exactly when the failures in a row reached the threshold
      and `t` is before the last of them plus the cooldown. */
  lemma CircuitIsHistory(rows: map<string, Provider>, history: seq<Report>, id: string,
                         threshold: nat, cooldown: nat, t: int)
    requires id in rows && rows[id] == FRESH && threshold > 0
    ensures id in After(rows, history, threshold, cooldown)
    ensures var failed := SinceSuccess(history, id);
      OpenAt(After(rows, history, threshold, cooldown)[id].openUntil, t) <==>
        |failed| >= threshold && t < failed[|failed| - 1].at + cooldown
  {
    RowsAreHistory(rows, history, id, threshold, cooldown);
  }

  /** What is reported on one provider never changes another. */
  lemma {:induction false} ProvidersAreIndependent(rows: map<string, Provider>, history: seq<Report>, id: string,
                                                   threshold: nat, cooldown: nat)
    requires id in rows && !Mentions(history, id)
    ensures id in After(rows, history, threshold, cooldown)
    ensures After(rows, history, threshold, cooldown)[id] == rows[id]
    decreases |history|
  {
    if history != [] {
      MentionsSnoc(history, id);
      ProvidersAreIndependent(rows, history[..|history| - 1], id, threshold, cooldown);
    }
  }

  /** After the cooldown one request may try again: its failure opens the circuit at once, for another
      cooldown; its success closes it, whatever came before. */
  lemma TrialDecides(rows: map<string, Provider>, history: seq<Report>, trial: Report,
                     threshold: nat, cooldown: nat)
    requires trial.provider in rows && rows[trial.provider] == FRESH && threshold > 0
    requires |SinceSuccess(history, trial.provider)| >= threshold
    ensures trial.provider in After(rows, history + [trial], threshold, cooldown)
    ensures After(rows, history + [trial], threshold, cooldown)[trial.provider].openUntil
      == if IsFailure(trial.status) then Some(trial.at + cooldown) else None
  {
    assert (history + [trial])[..|history|] == history;
    RowsAreHistory(rows, history + [trial], trial.provider, threshold, cooldown);
  }

  // ---------------------------------------------------------------- the gateway's own breaker

  /** The reports on one provider. */
  function On(history: seq<Report>, id: string): (r: seq<Report>)
    ensures |r| <= |history|
  {
    if history == [] then []
    else
      var last := history[|history| - 1];
      On(history[..|history| - 1], id) + if last.provider == id then [last] else []
  }

  /** The last three reports on a provider all failed. */
  predicate ThreeFailed(own: seq<Report>) {
    |own| >= 3 && forall i :: |own| - 3 <= i < |own| ==> own[i].status in {429, 401, 403} || own[i].status >= 500
  }

  /** The failures `failed` are the last reports of `own`, and the one before them is none. */
  predicate LastOnes(own: seq<Report>, failed: seq<Report>) {
    && |failed| <= |own| && failed == own[|own| - |failed|..]
    && (|failed| < |own| ==> !IsFailure(own[|own| - |failed| - 1].status))
  }

  lemma LastOnesSnoc(own: seq<Report>, failed: seq<Report>, last: Report)
    requires LastOnes(own, failed)
    ensures IsFailure(last.status) ==> LastOnes(own + [last], failed + [last])
    ensures !IsFailure(last.status) ==> LastOnes(own + [last], [])
  {
  }

  lemma {:induction false} FailedAreLast(history: seq<Report>, id: string)
    ensures LastOnes(On(history, id), SinceSuccess(history, id))
    decreases |history|
  {
    if history != [] {
      var front, last := history[..|history| - 1], history[|history| - 1];
      FailedAreLast(front, id);
      LastOnesSnoc(On(front, id), SinceSuccess(front, id), last);
      WithNothing(On(front, id));
    }
  }

  /** MAIN RESULT. Whatever was reported on whom, the circuit of a provider is open exactly when its last
      three reports are failures (429, 401, 403 or a server error) and the last of them is less than
      five minutes ago. */
  lemma OpenAfterThree(rows: map<string, Provider>, history: seq<Report>, id: string, now: int)
    requires id in rows && rows[id] == FRESH
    ensures id in After(rows, history, FAILURE_THRESHOLD, CIRCUIT_COOLDOWN)
    ensures var own := On(history, id);
      OpenAt(After(rows, history, FAILURE_THRESHOLD, CIRCUIT_COOLDOWN)[id].openUntil, now) <==>
        ThreeFailed(own) && now < own[|own| - 1].at + 300_000_000_000
  {
    CircuitIsHistory(rows, history, id, FAILURE_THRESHOLD, CIRCUIT_COOLDOWN, now);
    FailedAreLast(history, id);
    var own, failed := On(history, id), SinceSuccess(history, id);
    if |failed| >= 3 {
      forall i | |own| - 3 <= i < |own| ensures IsFailure(own[i].status) {
        assert own[i] == failed[i - (|own| - |failed|)];
      }
    }
  }
}
