/**
 postDecision of src/decisions/client.ts: one POST, at most one retry, one time budget.  Only a
 request and the pause between two requests take time; replies, the caller's abort and the random
 number come from outside.
 */
module Decision {
  import opened Base

  const RETRY_MIN_REMAINING_MS := 500
  const MAX_DELAY := 2_147_483_647

  datatype Kind = Auth | Credits | TooLarge | RateLimit | TimeoutKind | Upstream | BadRequest | Network | InvalidResponse

  /** What a request would get, given time enough. */
  datatype Reply =
    | NoReply
    | Reply(status: nat, retryAfter: Option<string>, valid: bool)   // valid: a body of JSON that parses

  datatype Exchange = Exchange(took: nat, reply: Reply)

  /** The world of one decision. */
  datatype Env = Env(
    first: Exchange,
    second: Exchange,
    random: real,
    nap: Option<nat>,        // a sleep that fails ends early
    abortAt: Option<int>,
    parseDate: string -> Option<int>)

  /** Math.random gives a number from 0 up to but not including 1. */
  predicate Plausible(e: Env) { 0.0 <= e.random < 1.0 }

  datatype Attempt =
    | Good
    | Bad(kind: Kind, transient: bool, retryAfter: Option<string>)
    | Cancelled

  datatype Outcome = Answered(attempts: nat) | Failed(kind: Kind, attempts: nat) | Aborted

  // ---------- Classifying ----------

  function StatusKind(status: nat): Kind {
    if status == 401 || status == 403 then Auth
    else if status == 402 then Credits
    else if status == 413 then TooLarge
    else if status == 429 then RateLimit
    else if status == 408 then TimeoutKind
    else if status >= 500 then Upstream
    else BadRequest
  }

  predicate TransientStatus(status: nat) { status in {408, 429, 500, 502, 503, 524, 529} }

  /** retryAfterMs: delta seconds or an HTTP date (section 10.2.3 of RFC 9110). */
  function RetryAfterMs(header: Option<string>, now: int, parseDate: string -> Option<int>): (ms: Option<nat>) {
    if header.None? then None
    else
      var value := Trim(header.value);
      if value == [] then None
      else if forall i :: 0 <= i < |value| ==> IsDigit(value[i]) then Some(Value(value) * 1000)
      else
        match parseDate(value)
        case None => None
        case Some(date) => Some(if date > now then date - now else 0)
  }

  /** Math.round */
  function Round(x: real): int { (x + 0.5).Floor }

  // ---------- Attempts ----------

  function TimeoutOf(now: int, deadline: int): (ms: nat)
    ensures 1 <= ms <= MAX_DELAY && (ms == 1 || ms <= deadline - now)
  {
    var left := if deadline - now > 1 then deadline - now else 1;
    if left <= MAX_DELAY then left else MAX_DELAY
  }

  predicate AbortedBy(abortAt: Option<int>, time: int) { abortAt.Some? && abortAt.value <= time }

  function Later(a: int, b: int): int { if a >= b then a else b }

  /** One attempt: when it ends, and how. */
  function TryOnce(now: int, deadline: int, x: Exchange, abortAt: Option<int>): (int, Attempt) {
    var timeout := TimeoutOf(now, deadline);
    var end := now + if x.took < timeout then x.took else timeout;
    if AbortedBy(abortAt, end) then (Later(now, abortAt.value), Cancelled)
    else if x.took >= timeout then (end, Bad(TimeoutKind, false, None))
    else if x.reply.NoReply? then (end, Bad(Network, true, None))
    else if 200 <= x.reply.status < 300 then (end, if x.reply.valid then Good else Bad(InvalidResponse, false, None))
    else (end, Bad(StatusKind(x.reply.status), TransientStatus(x.reply.status), x.reply.retryAfter))
  }

  /** The pause before the retry: what Retry-After asks when the budget allows it, else 125 to 375 ms. */
  function WaitMs(header: Option<string>, now: int, remaining: int, e: Env): int {
    var hinted := RetryAfterMs(header, now, e.parseDate);
    if hinted.Some? && remaining - hinted.value >= RETRY_MIN_REMAINING_MS then hinted.value
    else Round(125.0 + e.random * 250.0)
  }

  function NapMs(wait: int, nap: Option<nat>): int {
    if nap.Some? && nap.value < wait then nap.value else wait
  }

  // ---------- The whole decision ----------

  /** The outcome, when it is reached, and when each request was sent. */
  datatype Trace = Trace(outcome: Outcome, end: int, sent: seq<int>)

  function OutcomeOf(a: Attempt, attempts: nat): Outcome {
    match a
    case Good => Answered(attempts)
    case Bad(kind, _, _) => Failed(kind, attempts)
    case Cancelled => Aborted
  }

  function Run(start: int, timeoutMs: int, e: Env): Trace {
    if AbortedBy(e.abortAt, start) then Trace(Aborted, start, [])
    else
      var deadline := start + timeoutMs;
      var (now, first) := TryOnce(start, deadline, e.first, e.abortAt);
      var remaining := deadline - now;
      if !first.Bad? || !first.transient || remaining < RETRY_MIN_REMAINING_MS then Trace(OutcomeOf(first, 1), now, [start])
      else
        var wake := now + NapMs(WaitMs(first.retryAfter, now, remaining, e), e.nap);
        if AbortedBy(e.abortAt, wake) then Trace(Aborted, Later(now, e.abortAt.value), [start])
        else
          var (end, second) := TryOnce(wake, deadline, e.second, e.abortAt);
          Trace(OutcomeOf(second, 2), end, [start, wake])
  }

  class Rail {
    var now: int
    var sent: seq<int>

    method Attempt(deadline: int, x: Exchange, abortAt: Option<int>) returns (a: Attempt)
      modifies this
      ensures sent == old(sent) + [old(now)]
      ensures (now, a) == TryOnce(old(now), deadline, x, abortAt)
    {
      var timeout := TimeoutOf(now, deadline);
      sent := sent + [now];
      var started := now;
      var end := now + if x.took < timeout then x.took else timeout;
      if AbortedBy(abortAt, end) {
        now := Later(started, abortAt.value);
        return Cancelled;
      }
      now := end;
      if x.took >= timeout {
        return Bad(TimeoutKind, false, None);
      }
      if x.reply.NoReply? {
        return Bad(Network, true, None);
      }
      if 200 <= x.reply.status < 300 {
        return if x.reply.valid then Good else Bad(InvalidResponse, false, None);
      }
      a := Bad(StatusKind(x.reply.status), TransientStatus(x.reply.status), x.reply.retryAfter);
    }

    /** postDecision */
    method PostDecision(timeoutMs: int, e: Env) returns (r: Outcome)
      requires sent == []
      modifies this
      ensures Trace(r, now, sent) == Run(old(now), timeoutMs, e)
    {
      hide TryOnce, WaitMs, NapMs;
      if AbortedBy(e.abortAt, now) {
        return Aborted;
      }
      var deadline := now + timeoutMs;
      var first := Attempt(deadline, e.first, e.abortAt);
      if first.Good? {
        return Answered(1);
      }
      if first.Cancelled? {
        return Aborted;
      }
      var remaining := deadline - now;
      if !first.transient || remaining < RETRY_MIN_REMAINING_MS {
        return Failed(first.kind, 1);
      }
      var wait := WaitMs(first.retryAfter, now, remaining, e);
      var wake := now + NapMs(wait, e.nap);
      if AbortedBy(e.abortAt, wake) {
        now := Later(now, e.abortAt.value);
        return Aborted;
      }
      now := wake;
      var second := Attempt(deadline, e.second, e.abortAt);
      r := match second
        case Good => Answered(2)
        case Bad(kind, _, _) => Failed(kind, 2)
        case Cancelled => Aborted;
    }
  }

  // ---------- What every decision keeps ----------

  lemma AttemptEnds(now: int, deadline: int, x: Exchange, abortAt: Option<int>)
    requires !AbortedBy(abortAt, now)
    ensures var (end, a) := TryOnce(now, deadline, x, abortAt);
            now <= end && (end <= now + 1 || end <= deadline)
  {
  }

  /** The exchange ends before its timeout: the rest of the budget, at least one millisecond, at most MAX_DELAY. */
  predicate InTime(x: Exchange, sentAt: int, deadline: int) {
    x.took < MAX_DELAY && (x.took < 1 || sentAt + x.took < deadline)
  }

  predicate HasStatus(x: Exchange, sentAt: int, deadline: int, low: nat, high: nat) {
    InTime(x, sentAt, deadline) && x.reply.Reply? && low <= x.reply.status < high
  }

  /** A 2xx whose body parses, in time. */
  predicate Succeeds(x: Exchange, sentAt: int, deadline: int) {
    HasStatus(x, sentAt, deadline, 200, 300) && x.reply.valid
  }

  /** What each kind of failure means. */
  predicate FailsAs(kind: Kind, x: Exchange, sentAt: int, deadline: int) {
    match kind
    case TimeoutKind => !InTime(x, sentAt, deadline) || HasStatus(x, sentAt, deadline, 408, 409)
    case Network => InTime(x, sentAt, deadline) && x.reply.NoReply?
    case InvalidResponse => HasStatus(x, sentAt, deadline, 200, 300) && !x.reply.valid
    case Auth => HasStatus(x, sentAt, deadline, 401, 402) || HasStatus(x, sentAt, deadline, 403, 404)
    case Credits => HasStatus(x, sentAt, deadline, 402, 403)
    case TooLarge => HasStatus(x, sentAt, deadline, 413, 414)
    case RateLimit => HasStatus(x, sentAt, deadline, 429, 430)
    case Upstream => InTime(x, sentAt, deadline) && x.reply.Reply? && x.reply.status >= 500
    case BadRequest =>
      && (HasStatus(x, sentAt, deadline, 0, 200) || HasStatus(x, sentAt, deadline, 300, 500))
      && x.reply.status !in {401, 402, 403, 408, 413, 429}
  }

  /** The last request sent, of one or two. */
  function LastExchange(e: Env, sent: seq<int>): Exchange { if |sent| == 2 then e.second else e.first }

  /** What one attempt makes of its exchange. */
  lemma AttemptIsJudged(now: int, deadline: int, x: Exchange)
    ensures var a := TryOnce(now, deadline, x, None).1;
            && !a.Cancelled? && (a.Good? <==> Succeeds(x, now, deadline))
            && forall kind :: (a.Bad? && a.kind == kind) <==> FailsAs(kind, x, now, deadline)
  {
  }

  /**
   Without an abort the last request sent decides: the decision is answered exactly when that one got
   a 2xx with a body that parses in time, and fails with each kind exactly when it failed that way.
   */
  lemma OutcomeIff(start: int, timeoutMs: int, e: Env)
    requires e.abortAt.None?
    ensures var r := Run(start, timeoutMs, e);
            && 1 <= |r.sent| <= 2
            && var x, sentAt, deadline := LastExchange(e, r.sent), r.sent[|r.sent| - 1], start + timeoutMs;
               && !r.outcome.Aborted? && (r.outcome.Answered? <==> Succeeds(x, sentAt, deadline))
               && forall kind :: (r.outcome.Failed? && r.outcome.kind == kind) <==> FailsAs(kind, x, sentAt, deadline)
  {
    hide TryOnce, Succeeds, FailsAs, WaitMs, NapMs;
    var r := Run(start, timeoutMs, e);
    AttemptIsJudged(start, start + timeoutMs, e.first);
    if |r.sent| == 2 {
      AttemptIsJudged(r.sent[1], start + timeoutMs, e.second);
    }
  }

  lemma PauseIsNotNegative(header: Option<string>, now: int, remaining: int, e: Env)
    requires Plausible(e)
    ensures WaitMs(header, now, remaining, e) == WaitMs(header, now, remaining, e.(abortAt := None)) >= 0
  {
  }

  /**
   The caller's abort cuts the run that would have been: the decision is aborted exactly when the
   abort comes no later than that run's end, it ends there, and only the requests before it were sent.
   */
  lemma AbortedIff(start: int, timeoutMs: int, e: Env)
    requires Plausible(e)
    ensures var r, whole := Run(start, timeoutMs, e), Run(start, timeoutMs, e.(abortAt := None));
            && (r.outcome.Aborted? <==> AbortedBy(e.abortAt, whole.end))
            && (!r.outcome.Aborted? ==> r == whole)
            && (r.outcome.Aborted? ==>
                  && r.end == Later(start, e.abortAt.value) && |r.sent| <= |whole.sent| && r.sent == whole.sent[..|r.sent|]
                  && forall i :: 0 <= i < |whole.sent| ==> (whole.sent[i] < e.abortAt.value <==> i < |r.sent|))
  {
    hide RetryAfterMs, StatusKind, TransientStatus, WaitMs;
    var (now, first) := TryOnce(start, start + timeoutMs, e.first, None);
    if first.Bad? {
      PauseIsNotNegative(first.retryAfter, now, start + timeoutMs - now, e);
    }
  }

  /** The first failure of a run that allows a retry. */
  predicate RetriesAfterFirst(start: int, timeoutMs: int, e: Env) {
    var (now, first) := TryOnce(start, start + timeoutMs, e.first, e.abortAt);
    && !AbortedBy(e.abortAt, start) && first.Bad? && first.transient
    && start + timeoutMs - now >= RETRY_MIN_REMAINING_MS
  }

  /**
   At most two requests are sent; the second only after a transient failure with at least 500 ms
   left, and itself with at least 125 ms left; and the outcome reports as many attempts as requests.
   */
  lemma AtMostTwoRequests(start: int, timeoutMs: int, e: Env)
    requires Plausible(e)
    ensures var r := Run(start, timeoutMs, e);
            && |r.sent| <= 2
            && (|r.sent| >= 1 ==> r.sent[0] == start)
            && (|r.sent| == 2 ==> RetriesAfterFirst(start, timeoutMs, e) && start + timeoutMs - r.sent[1] >= 125)
            && (r.outcome.Answered? ==> r.outcome.attempts == |r.sent|)
            && (r.outcome.Failed? ==> r.outcome.attempts == |r.sent|)
  {
  }

  /**
   Without an abort, a second request is sent exactly when the first one failed in time, with a
   lost connection or a transient status, and left at least 500 ms.
   */
  lemma RetriesIff(start: int, timeoutMs: int, e: Env)
    requires Plausible(e) && e.abortAt.None?
    ensures |Run(start, timeoutMs, e).sent| == 2 <==>
            && InTime(e.first, start, start + timeoutMs)
            && timeoutMs - e.first.took >= 500
            && (e.first.reply.NoReply? || e.first.reply.status in {408, 429, 500, 502, 503, 524, 529})
  {
  }

  /** A Retry-After that leaves 500 ms is kept exactly; any other gives way to 125 to 375 ms. */
  lemma RetryAfterIsKept(start: int, timeoutMs: int, e: Env)
    requires Plausible(e) && e.nap.None? && |Run(start, timeoutMs, e).sent| == 2
    ensures var (now, first) := TryOnce(start, start + timeoutMs, e.first, e.abortAt);
            var hinted := RetryAfterMs(first.retryAfter, now, e.parseDate);
            var pause := Run(start, timeoutMs, e).sent[1] - now;
            if hinted.Some? && start + timeoutMs - now - hinted.value >= 500
            then pause == hinted.value
            else 125 <= pause <= 375 && -0.5 <= pause as real - (125.0 + 250.0 * e.random) <= 0.5
  {
  }

  /** Delta seconds are read as such. */
  lemma SecondsAreRead(n: nat, now: int, parseDate: string -> Option<int>)
    ensures RetryAfterMs(Some(Digits(n)), now, parseDate) == Some(1000 * n)
  {
    DigitsReadBack(n);
    DigitsAreTrimmed(Digits(n));
  }

  lemma DigitsAreTrimmed(s: string)
    requires s != [] && forall i :: 0 <= i < |s| ==> IsDigit(s[i])
    ensures Trim(s) == s
  {
    assert !IsSpace(s[0]) && !IsSpace(s[|s| - 1]);
  }

  /** A date is read as the time until it, and a past one as no time. */
  lemma DatesAreRead(value: string, now: int, date: int, parseDate: string -> Option<int>)
    requires Trim(value) != [] && !IsDigit(Trim(value)[0]) && parseDate(Trim(value)) == Some(date)
    ensures var ms := RetryAfterMs(Some(value), now, parseDate);
            ms.Some? && (date >= now ==> now + ms.value == date) && (date <= now ==> ms.value == 0)
  {
  }

  /** A decision ends within its budget, or within one millisecond when the budget is less than that. */
  lemma EndsInTime(start: int, timeoutMs: int, e: Env)
    requires Plausible(e)
    ensures start <= Run(start, timeoutMs, e).end <= start + Later(1, timeoutMs)
  {
    if !AbortedBy(e.abortAt, start) {
      AttemptEnds(start, start + timeoutMs, e.first, e.abortAt);
    }
  }

  const UNREACHABLE := Env(Exchange(1, NoReply), Exchange(1, NoReply), 0.0, None, None, _ => None)

  /** The budget is kept by every run exactly when it is at least one millisecond. */
  lemma BudgetIsKeptIff(start: int, timeoutMs: int)
    ensures (forall e :: Plausible(e) ==> Run(start, timeoutMs, e).end <= start + timeoutMs) <==> timeoutMs >= 1
  {
    if timeoutMs >= 1 {
      forall e | Plausible(e) ensures Run(start, timeoutMs, e).end <= start + timeoutMs {
        EndsInTime(start, timeoutMs, e);
      }
    } else {
      assert Plausible(UNREACHABLE);
      assert Run(start, timeoutMs, UNREACHABLE).end == start + 1;
    }
  }
}
