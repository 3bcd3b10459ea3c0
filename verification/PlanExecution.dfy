/** `executeOpenAIPlan` and `executeAnthropicPlan`: candidates in order, retries, failover.
    The two differ only in which upstream call an attempt makes. */
module PlanExecution {
  import opened Text
  import opened Upstream

  /** A candidate as the plan holds it: the provider's circuit state is a snapshot taken when the
      plan was resolved, so what the plan itself does to the provider is not seen here. */
  datatype Candidate = Candidate(providerType: string, circuitOpenUntil: Option<int>)

  function Protocol(providerType: string): string {
    match providerType
    case "azure-openai" => "openai"
    case "google" => "openai"
    case "azure-anthropic" => "anthropic"
    case _ => providerType
  }

  predicate Supported(c: Candidate) {
    var p := Protocol(c.providerType);
    p == "openai" || p == "bedrock" || p == "anthropic"
  }

  datatype Policy = Policy(retries: nat, healthRouting: bool)

  datatype Reply = Reply(status: int, outputBlocked: bool)

  datatype Denial = Denial(status: int)

  /** All the plan does not decide itself: the clock when a candidate is looked at, whether it is
      admitted then, and the reply to each numbered attempt. */
  datatype World = World(clock: nat -> int, admission: nat -> Option<Denial>, upstream: nat -> Reply)

  /** One upstream attempt: on which candidate, which try there, its number in the request, the
      upstream's status and the status after the output guardrail. */
  datatype Attempt = Attempt(candidate: nat, try: nat, number: nat, upstreamStatus: int, status: int)

  datatype Outcome =
    | NoCandidate
    | CircuitOpen(candidate: nat)
    | Denied(candidate: nat, denial: Denial)
    | Answered(attempt: Attempt)

  /** A body the output guardrail blocks is answered with 422. */
  function GuardedStatus(r: Reply): int {
    if r.outputBlocked && r.status < 400 then 422 else r.status
  }

  /** What the plan decides about candidate `c` before any attempt; `None` means it is attempted. */
  function Verdict(w: World, p: Policy, cs: seq<Candidate>, c: nat): Option<Outcome>
    requires c < |cs|
  {
    if !Supported(cs[c]) then Some(NoCandidate)
    else if p.healthRouting && OpenAt(cs[c].circuitOpenUntil, w.clock(c)) then Some(CircuitOpen(c))
    else if c > 0 && w.admission(c).Some? then Some(Denied(c, w.admission(c).value))
    else None
  }

  predicate Eligible(w: World, p: Policy, cs: seq<Candidate>, c: nat) {
    c < |cs| && Verdict(w, p, cs, c) == None
  }

  /** No candidate in `[lo, hi)` is attempted. */
  predicate NoneEligible(w: World, p: Policy, cs: seq<Candidate>, lo: nat, hi: nat) {
    forall c :: lo <= c < hi ==> !Eligible(w, p, cs, c)
  }

  function MakeAttempt(w: World, c: nat, try: nat, number: nat): Attempt {
    Attempt(c, try, number, w.upstream(number).status, GuardedStatus(w.upstream(number)))
  }

  /** After this attempt its candidate is tried again. */
  predicate TriesAgain(p: Policy, a: Attempt) {
    IsFailure(a.status) && AllowsRetry(a.status) && a.try <= p.retries
  }

  /** Attempt `b` is what follows attempt `a`. */
  predicate Follows(w: World, p: Policy, cs: seq<Candidate>, a: Attempt, b: Attempt) {
    && IsFailure(a.status)
    && if TriesAgain(p, a) then b.candidate == a.candidate && b.try == a.try + 1
       else
         && b.candidate > a.candidate && b.try == 1
         && Eligible(w, p, cs, b.candidate)
         && NoneEligible(w, p, cs, a.candidate + 1, b.candidate)
  }

  /** A plan under way, seen from attempt to attempt. */
  predicate Trace(w: World, p: Policy, cs: seq<Candidate>, t: seq<Attempt>) {
    && (forall i :: 0 <= i < |t| ==>
         t[i] == MakeAttempt(w, t[i].candidate, t[i].try, i + 1))
    && (t != [] ==>
         t[0].try == 1 && Eligible(w, p, cs, t[0].candidate)
         && NoneEligible(w, p, cs, 0, t[0].candidate))
    && (forall i :: 0 <= i < |t| - 1 ==> Follows(w, p, cs, t[i], t[i + 1]))
  }

  /** A plan that has nothing left to do. */
  predicate Over(w: World, p: Policy, cs: seq<Candidate>, t: seq<Attempt>) {
    if t == [] then NoneEligible(w, p, cs, 0, |cs|)
    else
      var last := t[|t| - 1];
      !IsFailure(last.status)
      || (!TriesAgain(p, last) && NoneEligible(w, p, cs, last.candidate + 1, |cs|))
  }

  /** What the plan reports after the candidates before `n`: the latest attempt or refusal. */
  function Report(w: World, p: Policy, cs: seq<Candidate>, t: seq<Attempt>, n: nat): Outcome
    requires n <= |cs|
  {
    if n == 0 then NoCandidate
    else
      match Verdict(w, p, cs, n - 1)
      case None => if t == [] then NoCandidate else Answered(t[|t| - 1])
      case Some(NoCandidate) => Report(w, p, cs, t, n - 1)
      case Some(refusal) => refusal
  }

  /** The report of a finished plan: the attempt that did not fail, if any. */
  function FinalReport(w: World, p: Policy, cs: seq<Candidate>, t: seq<Attempt>): Outcome {
    if t != [] && !IsFailure(t[|t| - 1].status) then Answered(t[|t| - 1])
    else Report(w, p, cs, t, |cs|)
  }

  /** Trace `t` ends with candidate `c` given up. */
  predicate GaveUp(w: World, p: Policy, cs: seq<Candidate>, t: seq<Attempt>, n: nat) {
    && Trace(w, p, cs, t)
    && if t == [] then NoneEligible(w, p, cs, 0, n)
       else
         var last := t[|t| - 1];
         IsFailure(last.status) && !TriesAgain(p, last) && last.candidate < n
         && NoneEligible(w, p, cs, last.candidate + 1, n)
  }

  /** All tries on one candidate: until one does not fail, or no retry is allowed or left. */
  method TryCandidate(w: World, p: Policy, cs: seq<Candidate>, idx: nat, before: seq<Attempt>)
    returns (t: seq<Attempt>)
    requires GaveUp(w, p, cs, before, idx) && Eligible(w, p, cs, idx)
    ensures Trace(w, p, cs, t) && t != [] && t[|t| - 1].candidate == idx
    ensures IsFailure(t[|t| - 1].status) ==> GaveUp(w, p, cs, t, idx + 1)
  {
    t := before;
    var attempts := p.retries + 1;
    var attempt := 0;
    while attempt < attempts
      invariant 0 <= attempt <= attempts
      invariant Trace(w, p, cs, t)
      invariant attempt == 0 ==> t == before
      invariant attempt > 0 ==> t != [] && OnceMore(p, t[|t| - 1], idx, attempt)
    {
      var result := MakeAttempt(w, idx, attempt + 1, |t| + 1);
      TraceSnoc(w, p, cs, t, result);
      t := t + [result];
      if !IsFailure(result.status) {
        return;
      }
      if attempt + 1 < attempts && AllowsRetry(result.status) {
        attempt := attempt + 1;
        continue;
      }
      break;
    }
  }

  /** The latest attempt was the `try`-th on candidate `c`, and is followed by another. */
  predicate OnceMore(p: Policy, last: Attempt, c: nat, try: nat) {
    last.candidate == c && last.try == try && TriesAgain(p, last)
  }

  lemma SkipCandidate(w: World, p: Policy, cs: seq<Candidate>, t: seq<Attempt>, n: nat)
    requires n < |cs| && GaveUp(w, p, cs, t, n) && !Eligible(w, p, cs, n)
    ensures GaveUp(w, p, cs, t, n + 1)
  {
  }

  method ExecutePlan(w: World, p: Policy, cs: seq<Candidate>)
    returns (outcome: Outcome, t: seq<Attempt>)
    ensures Trace(w, p, cs, t) && Over(w, p, cs, t)
    ensures outcome == FinalReport(w, p, cs, t)
  {
    t := [];
    outcome := NoCandidate;
    for idx := 0 to |cs|
      invariant GaveUp(w, p, cs, t, idx)
      invariant outcome == Report(w, p, cs, t, idx)
    {
      var verdict := Verdict(w, p, cs, idx);
      if verdict.Some? {
        SkipCandidate(w, p, cs, t, idx);
        if verdict.value != NoCandidate {
          outcome := verdict.value;
        }
      } else {
        t := TryCandidate(w, p, cs, idx, t);
        outcome := Answered(t[|t| - 1]);
        if !IsFailure(t[|t| - 1].status) {
          return;
        }
      }
    }
  }

  /** `selectOpenAIStreamCandidate` and `selectAnthropicStreamCandidate`: a stream is not retried, so it
      goes to the first candidate that may be attempted, which is where a plan would begin. */
  method SelectStreamCandidate(w: World, p: Policy, cs: seq<Candidate>) returns (chosen: Option<nat>)
    ensures chosen.Some? ==> Eligible(w, p, cs, chosen.value) && NoneEligible(w, p, cs, 0, chosen.value)
    ensures chosen.None? ==> NoneEligible(w, p, cs, 0, |cs|)
  {
    for idx := 0 to |cs|
      invariant NoneEligible(w, p, cs, 0, idx)
    {
      if !Supported(cs[idx]) {
        continue;
      }
      if p.healthRouting && OpenAt(cs[idx].circuitOpenUntil, w.clock(idx)) {
        continue;
      }
      if idx > 0 && w.admission(idx).Some? {
        continue;
      }
      return Some(idx);
    }
    chosen := None;
  }

  /** So a stream and a plan over the same candidates begin at the same one. */
  lemma StreamsBeginAlike(w: World, p: Policy, cs: seq<Candidate>, t: seq<Attempt>, chosen: nat)
    requires Trace(w, p, cs, t) && t != []
    requires Eligible(w, p, cs, chosen) && NoneEligible(w, p, cs, 0, chosen)
    ensures t[0].candidate == chosen
  {
    if chosen < t[0].candidate {
      assert false;
    }
  }

  lemma TraceSnoc(w: World, p: Policy, cs: seq<Candidate>, t: seq<Attempt>, a: Attempt)
    requires Trace(w, p, cs, t) && a == MakeAttempt(w, a.candidate, a.try, |t| + 1)
    requires if t == [] then
        a.try == 1 && Eligible(w, p, cs, a.candidate) && NoneEligible(w, p, cs, 0, a.candidate)
      else Follows(w, p, cs, t[|t| - 1], a)
    ensures Trace(w, p, cs, t + [a])
  {
    var t' := t + [a];
    forall i | 0 <= i < |t'| - 1 ensures Follows(w, p, cs, t'[i], t'[i + 1]) {
      if i < |t| - 1 {
        assert Follows(w, p, cs, t[i], t[i + 1]);
      }
    }
  }

  // ---------------------------------------------------------------- what every plan keeps

  /** The tries on all candidates, in order, numbered through. */
  function Rank(p: Policy, a: Attempt): int {
    a.candidate * (p.retries + 1) + a.try
  }

  lemma RankGrows(w: World, p: Policy, cs: seq<Candidate>, a: Attempt, b: Attempt)
    requires Follows(w, p, cs, a, b) && 1 <= a.try <= p.retries + 1
    ensures Rank(p, a) < Rank(p, b) && 1 <= b.try <= p.retries + 1
  {
    if b.candidate > a.candidate {
      MoreTimes(a.candidate, b.candidate, p.retries + 1);
    }
  }

  lemma {:induction false} MoreTimes(a: nat, b: nat, n: nat)
    requires a < b
    ensures a * n + n <= b * n
    decreases b
  {
    assert b * n == (b - 1) * n + n;
    if a < b - 1 {
      MoreTimes(a, b - 1, n);
    }
  }

  lemma {:induction false} AttemptsBounded(w: World, p: Policy, cs: seq<Candidate>, t: seq<Attempt>, i: nat)
    requires Trace(w, p, cs, t) && i < |t|
    ensures i + 1 <= Rank(p, t[i]) && 1 <= t[i].try <= p.retries + 1
    ensures Eligible(w, p, cs, t[i].candidate)
    decreases i
  {
    if i > 0 {
      AttemptsBounded(w, p, cs, t, i - 1);
      assert Follows(w, p, cs, t[i - 1], t[i - 1 + 1]);
      RankGrows(w, p, cs, t[i - 1], t[i]);
    } else {
      assert t[0].candidate * (p.retries + 1) >= 0;
    }
  }

  lemma {:induction false} NeverReturns(w: World, p: Policy, cs: seq<Candidate>, t: seq<Attempt>,
                                        i: nat, j: nat)
    requires Trace(w, p, cs, t) && i <= j < |t|
    ensures t[i].candidate <= t[j].candidate
    decreases j
  {
    if i < j {
      NeverReturns(w, p, cs, t, i, j - 1);
      assert Follows(w, p, cs, t[j - 1], t[j - 1 + 1]);
    }
  }

  /** MAIN RESULT. Of a plan's attempts only the last can be other than a failure; they are no more
      than candidates times tries; candidates are taken in order and never returned to; each was
      eligible; and a candidate is tried again only after 429 or a server error. */
  lemma PlanIsSafe(w: World, p: Policy, cs: seq<Candidate>, t: seq<Attempt>)
    requires Trace(w, p, cs, t)
    ensures |t| <= |cs| * (p.retries + 1)
    ensures forall i :: 0 <= i < |t| - 1 ==> IsFailure(t[i].status)
    ensures forall i :: 0 <= i < |t| ==> Eligible(w, p, cs, t[i].candidate)
    ensures forall i, j :: 0 <= i <= j < |t| ==> t[i].candidate <= t[j].candidate
    ensures forall i :: 0 <= i < |t| - 1 && t[i + 1].candidate == t[i].candidate ==>
      t[i].status == 429 || t[i].status >= 500
  {
    forall i | 0 <= i < |t| ensures Eligible(w, p, cs, t[i].candidate) {
      AttemptsBounded(w, p, cs, t, i);
    }
    forall i, j | 0 <= i <= j < |t| ensures t[i].candidate <= t[j].candidate {
      NeverReturns(w, p, cs, t, i, j);
    }
    forall i | 0 <= i < |t| - 1
      ensures IsFailure(t[i].status)
      ensures t[i + 1].candidate == t[i].candidate ==> t[i].status == 429 || t[i].status >= 500
    {
      assert Follows(w, p, cs, t[i], t[i + 1]);
    }
    if t != [] {
      var last := t[|t| - 1];
      AttemptsBounded(w, p, cs, t, |t| - 1);
      assert last.candidate + 1 <= |cs|;
      assert (last.candidate + 1) * (p.retries + 1) == last.candidate * (p.retries + 1) + p.retries + 1;
      MulMono(last.candidate + 1, |cs|, p.retries + 1);
    }
  }

  lemma MulMono(a: nat, b: nat, m: nat)
    requires a <= b
    ensures a * m <= b * m
  {
  }

  /** No eligible candidate is passed over. */
  lemma {:induction false} NobodyPassedOver(w: World, p: Policy, cs: seq<Candidate>, t: seq<Attempt>,
                                            j: nat, c: nat)
    requires Trace(w, p, cs, t) && j < |t| && c <= t[j].candidate && Eligible(w, p, cs, c)
    ensures exists i :: 0 <= i <= j && t[i].candidate == c
    decreases j
  {
    if c != t[j].candidate && j > 0 {
      assert Follows(w, p, cs, t[j - 1], t[j - 1 + 1]);
      if c <= t[j - 1].candidate {
        NobodyPassedOver(w, p, cs, t, j - 1, c);
      }
    } else if c != t[j].candidate {
      assert false;
    } else {
      assert t[j].candidate == c;
    }
  }

  /** MAIN RESULT. A finished plan without an answer other than a failure has attempted every
      eligible candidate; with one, it stopped there and reports it. */
  lemma PlanIsComplete(w: World, p: Policy, cs: seq<Candidate>, t: seq<Attempt>)
    requires Trace(w, p, cs, t) && Over(w, p, cs, t)
    ensures (exists i :: 0 <= i < |t| && !IsFailure(t[i].status))
      ==> FinalReport(w, p, cs, t) == Answered(t[|t| - 1]) && !IsFailure(t[|t| - 1].status)
    ensures (forall i :: 0 <= i < |t| ==> IsFailure(t[i].status))
      ==> forall c: nat :: Eligible(w, p, cs, c) ==> exists i :: 0 <= i < |t| && t[i].candidate == c
  {
    PlanIsSafe(w, p, cs, t);
    if forall i :: 0 <= i < |t| ==> IsFailure(t[i].status) {
      forall c: nat | Eligible(w, p, cs, c) ensures exists i :: 0 <= i < |t| && t[i].candidate == c {
        if t != [] && c <= t[|t| - 1].candidate {
          NobodyPassedOver(w, p, cs, t, |t| - 1, c);
        }
      }
    }
  }

  // ---------------------------------------------------------------- status by status

  /** A candidate is attempted exactly if its provider is of one of six types, its circuit, as the plan
      saw it, is closed or not asked about, and the gate lets it through; the first one has passed
      the gate before the plan. */
  lemma EligibleExactly(w: World, p: Policy, cs: seq<Candidate>, c: nat)
    requires c < |cs|
    ensures Eligible(w, p, cs, c) <==>
      && cs[c].providerType in {"openai", "azure-openai", "google", "anthropic", "azure-anthropic", "bedrock"}
      && !(p.healthRouting && cs[c].circuitOpenUntil.Some? && w.clock(c) < cs[c].circuitOpenUntil.value)
      && (c == 0 || w.admission(c).None?)
  {
    SupportedTypes(cs[c].providerType);
  }

  lemma SupportedTypes(providerType: string)
    ensures Protocol(providerType) == "openai" <==> providerType in {"openai", "azure-openai", "google"}
    ensures Protocol(providerType) == "anthropic" <==> providerType in {"anthropic", "azure-anthropic"}
    ensures Protocol(providerType) == "bedrock" <==> providerType == "bedrock"
    ensures Supported(Candidate(providerType, None))
      <==> providerType in {"openai", "azure-openai", "google", "anthropic", "azure-anthropic", "bedrock"}
  {
  }

  /** MAIN RESULT. The statuses that decide a plan, one by one. The `n`-th attempt has the `n`-th reply's
      status, or 422 if its output is blocked. Only 429, 401, 403 and server errors are followed by
      another attempt: on the same candidate exactly after 429 or a server error with a try left. And
      the plan is over exactly when the last status is none of these, or when the candidate may not
      be tried again and no later one is eligible. */
  lemma PlanByStatus(w: World, p: Policy, cs: seq<Candidate>, t: seq<Attempt>)
    requires Trace(w, p, cs, t) && t != []
    ensures forall i :: 0 <= i < |t| ==>
      t[i].number == i + 1 && t[i].upstreamStatus == w.upstream(i + 1).status
      && t[i].status == (if w.upstream(i + 1).outputBlocked && w.upstream(i + 1).status < 400 then 422
                         else w.upstream(i + 1).status)
    ensures forall i :: 0 <= i < |t| - 1 ==> t[i].status in {429, 401, 403} || t[i].status >= 500
    ensures forall i :: 0 <= i < |t| - 1 ==>
      (t[i + 1].candidate == t[i].candidate <==>
        (t[i].status == 429 || t[i].status >= 500) && t[i].try <= p.retries)
    ensures t[0].try == 1
    ensures forall i :: 0 <= i < |t| - 1 ==>
      t[i + 1].try == if t[i + 1].candidate == t[i].candidate then t[i].try + 1 else 1
    ensures var last := t[|t| - 1];
      Over(w, p, cs, t) <==>
        || (last.status !in {429, 401, 403} && last.status < 500)
        || (!((last.status == 429 || last.status >= 500) && last.try <= p.retries)
            && forall c: nat :: last.candidate < c < |cs| ==> !Eligible(w, p, cs, c))
  {
    forall i | 0 <= i < |t| - 1
      ensures t[i].status in {429, 401, 403} || t[i].status >= 500
      ensures t[i + 1].candidate == t[i].candidate
        <==> (t[i].status == 429 || t[i].status >= 500) && t[i].try <= p.retries
      ensures t[i + 1].try == if t[i + 1].candidate == t[i].candidate then t[i].try + 1 else 1
    {
      assert Follows(w, p, cs, t[i], t[i + 1]);
    }
  }

  /** No candidate from the `n`-th on can be called at all. */
  predicate NoneSupported(cs: seq<Candidate>, n: nat) {
    forall c :: n <= c < |cs| ==> !Supported(cs[c])
  }

  lemma {:induction false} UnsupportedUnreported(w: World, p: Policy, cs: seq<Candidate>, t: seq<Attempt>,
                                                 lo: nat, hi: nat)
    requires lo <= hi <= |cs| && forall c :: lo <= c < hi ==> !Supported(cs[c])
    ensures Report(w, p, cs, t, hi) == Report(w, p, cs, t, lo)
    decreases hi
  {
    if lo < hi {
      UnsupportedUnreported(w, p, cs, t, lo, hi - 1);
    }
  }

  /** MAIN RESULT. A plan without an answer reports its last candidate of a supported type: the attempt on
      it, which is the last of all, or that its circuit is open, or why it was refused; and that there
      is none if there is no such candidate. */
  lemma FailureIsReported(w: World, p: Policy, cs: seq<Candidate>, t: seq<Attempt>)
    requires Trace(w, p, cs, t) && Over(w, p, cs, t)
    requires forall i :: 0 <= i < |t| ==> t[i].status in {429, 401, 403} || t[i].status >= 500
    ensures NoneSupported(cs, 0) ==> FinalReport(w, p, cs, t) == NoCandidate
    ensures forall c: nat :: c < |cs| && Supported(cs[c]) && NoneSupported(cs, c + 1) ==>
      FinalReport(w, p, cs, t) ==
        if p.healthRouting && cs[c].circuitOpenUntil.Some? && w.clock(c) < cs[c].circuitOpenUntil.value then
          CircuitOpen(c)
        else if c > 0 && w.admission(c).Some? then Denied(c, w.admission(c).value)
        else if t != [] then Answered(t[|t| - 1]) else NoCandidate
    ensures forall c: nat :: Eligible(w, p, cs, c) && NoneSupported(cs, c + 1) ==>
      t != [] && t[|t| - 1].candidate == c
  {
    if NoneSupported(cs, 0) {
      UnsupportedUnreported(w, p, cs, t, 0, |cs|);
    }
    forall c: nat | c < |cs| && Supported(cs[c]) && NoneSupported(cs, c + 1)
      ensures Report(w, p, cs, t, |cs|) == Report(w, p, cs, t, c + 1)
    {
      UnsupportedUnreported(w, p, cs, t, c + 1, |cs|);
    }
    forall c: nat | Eligible(w, p, cs, c) && NoneSupported(cs, c + 1)
      ensures t != [] && t[|t| - 1].candidate == c
    {
      if t != [] {
        AttemptsBounded(w, p, cs, t, |t| - 1);
      }
    }
  }

  /** The rules leave no choice: two finished plans in the same world are the same plan. */
  lemma {:induction false} PlanIsDetermined(w: World, p: Policy, cs: seq<Candidate>,
                                            t: seq<Attempt>, u: seq<Attempt>, n: nat)
    requires Trace(w, p, cs, t) && Trace(w, p, cs, u) && n <= |t| && n <= |u|
    ensures t[..n] == u[..n]
    decreases n
  {
    if n > 0 {
      PlanIsDetermined(w, p, cs, t, u, n - 1);
      AttemptsBounded(w, p, cs, t, n - 1);
      AttemptsBounded(w, p, cs, u, n - 1);
      if n > 1 {
        assert t[n - 2] == t[..n - 1][n - 2] && u[n - 2] == u[..n - 1][n - 2];
        assert Follows(w, p, cs, t[n - 2], t[n - 2 + 1]) && Follows(w, p, cs, u[n - 2], u[n - 2 + 1]);
      }
      assert t[n - 1] == u[n - 1];
      assert t[..n] == t[..n - 1] + [t[n - 1]] && u[..n] == u[..n - 1] + [u[n - 1]];
    }
  }

  lemma PlanIsUnique(w: World, p: Policy, cs: seq<Candidate>, t: seq<Attempt>, u: seq<Attempt>)
    requires Trace(w, p, cs, t) && Over(w, p, cs, t)
    requires Trace(w, p, cs, u) && Over(w, p, cs, u)
    ensures t == u
  {
    if |t| > |u| {
      NoneLonger(w, p, cs, u, t);
    } else {
      NoneLonger(w, p, cs, t, u);
      PlanIsDetermined(w, p, cs, t, u, |t|);
      assert t[..|t|] == t && u[..|t|] == u;
    }
  }

  /** A plan cut short is not finished. */
  lemma CutShort(w: World, p: Policy, cs: seq<Candidate>, t: seq<Attempt>, n: nat)
    requires Trace(w, p, cs, t) && n < |t|
    ensures !Over(w, p, cs, t[..n])
  {
    AttemptsBounded(w, p, cs, t, n);
    if n > 0 {
      assert Follows(w, p, cs, t[n - 1], t[n - 1 + 1]);
      assert t[..n][n - 1] == t[n - 1];
    }
  }

  lemma NoneLonger(w: World, p: Policy, cs: seq<Candidate>, t: seq<Attempt>, u: seq<Attempt>)
    requires Trace(w, p, cs, t) && Over(w, p, cs, t) && Trace(w, p, cs, u)
    ensures |u| <= |t|
  {
    if |t| < |u| {
      assert t[..|t|] == t;
      PlanIsDetermined(w, p, cs, t, u, |t|);
      CutShort(w, p, cs, u, |t|);
    }
  }
}
