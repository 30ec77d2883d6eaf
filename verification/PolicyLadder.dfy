/** The retry ladder of internal/policyclient/client.go: its time budget, its attempts,
    and which error is left when it runs out. */
module PolicyLadder {
  import opened Wrappers

  // ----------------------------------------------------------------- time budget ----

  const MS := 1_000_000   // nanoseconds
  const DEFAULT_TIMEOUT := 4500 * MS
  const MIN_ATTEMPT := 500 * MS
  const INFERENCE_FLOOR := 1800 * MS
  const BACKOFF := 50 * MS
  const ATTEMPTS := 3

  // DeriveAttemptTimeout, with the 0.4 fraction exact.
  function AttemptTimeout(timeout: int): int {
    var t := if timeout <= 0 then DEFAULT_TIMEOUT else timeout;
    var a := (t as real * 0.4).Floor;
    var a := if a < INFERENCE_FLOOR && t >= INFERENCE_FLOOR + MIN_ATTEMPT then INFERENCE_FLOOR else a;
    var a := if a < MIN_ATTEMPT then MIN_ATTEMPT else a;
    if a > t then t else a
  }

  lemma FractionFloor(t: int)
    requires t > 0
    ensures var a := (t as real * 0.4).Floor; 5 * a <= 2 * t < 5 * a + 5
  {
    var a := (t as real * 0.4).Floor;
    assert (a as real) <= t as real * 0.4 < (a as real) + 1.0;
  }

  /** The attempt bound lies between the smaller of 500ms and the budget, and the budget;
      from 2300ms on it outlives a sidecar's inference and leaves at least 500ms. */
  lemma AttemptTimeoutInRange(t: int)
    requires t > 0
    ensures (if t < MIN_ATTEMPT then t else MIN_ATTEMPT) <= AttemptTimeout(t) <= t
    ensures t >= INFERENCE_FLOOR + MIN_ATTEMPT ==>
              INFERENCE_FLOOR <= AttemptTimeout(t) && AttemptTimeout(t) + MIN_ATTEMPT <= t
  {
    FractionFloor(t);
  }

  /** The attempt bound of every budget: the whole of one under 500ms, 500ms up to 1250ms, two
      fifths up to 2300ms, 1800ms up to 4500ms, and two fifths again from there; a budget that
      is not positive is 4500ms. */
  lemma AttemptTimeoutByBudget(t: int)
    ensures var a := AttemptTimeout(t);
            && (t <= 0 ==> a == 1800 * MS)
            && (0 < t < 500 * MS ==> a == t)
            && (500 * MS <= t < 1250 * MS ==> a == 500 * MS)
            && (1250 * MS <= t < 2300 * MS || t >= 4500 * MS ==> 5 * a <= 2 * t < 5 * a + 5)
            && (2300 * MS <= t < 4500 * MS ==> a == 1800 * MS)
  {
    FractionFloor(if t <= 0 then DEFAULT_TIMEOUT else t);
  }

  lemma AttemptTimeoutMonotone(t: int, u: int)
    requires 0 < t <= u
    ensures AttemptTimeout(t) <= AttemptTimeout(u)
  {
    FractionFloor(t);
    FractionFloor(u);
  }

  /** Two full attempts and the backoff between them fit the budget exactly from 1050ms
      up to 2300ms, and from 3650ms on. */
  lemma TwoAttemptsFitExactlyWhen(t: int)
    requires t > 0
    ensures 2 * AttemptTimeout(t) + BACKOFF <= t <==> 1050 * MS <= t < 2300 * MS || t >= 3650 * MS
  {
    FractionFloor(t);
  }

  /** Three full attempts with both backoffs never fit. */
  lemma ThreeAttemptsNeverFit(t: int)
    requires t > 0
    ensures 3 * AttemptTimeout(t) + BACKOFF + 2 * BACKOFF > t
  {
    FractionFloor(t);
  }

  // ----------------------------------------------------------------------- errors ----

  datatype Sentinel = DeadlineExceeded | Canceled

  // What errors.As and errors.Is find along a chain: a sidecar status, and the context
  // sentinels.
  datatype Fault = Fault(status: Option<int>, deadline: bool, cancelled: bool)

  predicate Reaches(f: Fault, s: Sentinel) {
    match s case DeadlineExceeded => f.deadline case Canceled => f.cancelled
  }

  function OfSentinel(s: Sentinel): Fault {
    Fault(None, s.DeadlineExceeded?, s.Canceled?)
  }

  // fmt.Errorf("%w: %w").
  function Both(a: Fault, b: Fault): Fault {
    Fault(if a.status.Some? then a.status else b.status, a.deadline || b.deadline, a.cancelled || b.cancelled)
  }

  function SignalOf(candidate: Option<Fault>): Option<Sentinel> {
    if candidate.None? then None
    else if candidate.value.deadline then Some(DeadlineExceeded)
    else if candidate.value.cancelled then Some(Canceled)
    else None
  }

  // cancellationSignal: the first sentinel reachable from any candidate.
  function FirstSignal(a: Option<Fault>, b: Option<Fault>, c: Option<Fault>): Option<Sentinel> {
    if SignalOf(a).Some? then SignalOf(a) else if SignalOf(b).Some? then SignalOf(b) else SignalOf(c)
  }

  // exhaustedPolicyErr.
  function Exhausted(statusErr: Option<Fault>, lastErr: Option<Fault>, ctxErr: Option<Sentinel>): Fault {
    var primary := if statusErr.Some? then statusErr else lastErr;
    var signal := FirstSignal(if ctxErr.Some? then Some(OfSentinel(ctxErr.value)) else None, lastErr, statusErr);
    if primary.None? && signal.None? then Fault(None, false, false)
    else if primary.None? then OfSentinel(signal.value)
    else if signal.None? || Reaches(primary.value, signal.value) then primary.value
    else Both(primary.value, OfSentinel(signal.value))
  }

  // ----------------------------------------------------------------------- ladder ----

  // What one attempt's HTTP call comes to.  A call without a reply may have been cut by
  // the attempt's own bound while the parent context was still live.
  datatype Reply =
    | Replied(code: int)
    | NoReply(err: Fault, attemptExpired: bool, parentLive: bool)

  // The run's environment, attempts counted from 1.
  datatype Env = Env(
    buildFails: bool,                          // the request cannot be built at all
    reply: nat -> Reply,
    ctxAtStart: nat -> Option<Sentinel>,       // ctx.Err() before the attempt
    ctxInBackoff: nat -> Option<Sentinel>)     // the context ends the backoff after it

  datatype Ended = Answered(code: int) | BuildError | Failed(fault: Fault)

  datatype LadderRun = LadderRun(ended: Ended, attempts: nat)

  predicate IsTransient(code: int) {
    code == 500 || code == 502 || code == 503 || code == 504
  }

  /** Of all the statuses a sidecar may answer with, four are worth another attempt. */
  lemma FourStatusesAreTransient(code: int)
    ensures IsTransient(code) <==> code in {500, 502, 503, 504}
  { }

  // attemptError.
  function AttemptFault(r: Reply): Fault {
    match r
    case Replied(code) => Fault(Some(code), false, false)
    case NoReply(err, attemptExpired, parentLive) =>
      if parentLive && attemptExpired then Fault(None, true, false) else err.(status := None)
  }

  // The ladder from attempt n on, n - 1 attempts having failed.
  function Climb(e: Env, n: nat, statusErr: Option<Fault>, lastErr: Option<Fault>): LadderRun
    requires 1 <= n <= ATTEMPTS
    decreases ATTEMPTS - n
  {
    if e.ctxAtStart(n).Some? then LadderRun(Failed(Exhausted(statusErr, lastErr, e.ctxAtStart(n))), n - 1)
    else if e.buildFails then LadderRun(BuildError, n)
    else if e.reply(n).Replied? && !IsTransient(e.reply(n).code) then LadderRun(Answered(e.reply(n).code), n)
    else
      var fault := AttemptFault(e.reply(n));
      var status := if fault.status.Some? then Some(fault) else statusErr;
      if n == ATTEMPTS then LadderRun(Failed(Exhausted(status, Some(fault), None)), n)
      else if e.ctxInBackoff(n).Some? then LadderRun(Failed(Exhausted(status, Some(fault), e.ctxInBackoff(n))), n)
      else Climb(e, n + 1, status, Some(fault))
  }

  function Ladder(e: Env): LadderRun {
    Climb(e, 1, None, None)
  }

  // The latest transient status among the first k attempts.
  function LatestStatus(e: Env, k: nat): Option<int> {
    if k == 0 then None
    else if e.reply(k).Replied? && IsTransient(e.reply(k).code) then Some(e.reply(k).code)
    else LatestStatus(e, k - 1)
  }

  // The context sentinel that ended a run of k attempts, if one did.
  function EndedBy(e: Env, k: nat): Option<Sentinel> {
    if k < ATTEMPTS && k > 0 && e.ctxInBackoff(k).Some? then e.ctxInBackoff(k)
    else if k < ATTEMPTS then e.ctxAtStart(k + 1)
    else None
  }

  lemma ExhaustedKeeps(statusErr: Option<Fault>, lastErr: Option<Fault>, ctxErr: Option<Sentinel>)
    requires statusErr.Some? ==> statusErr.value.status.Some?
    requires statusErr.None? && lastErr.Some? ==> lastErr.value.status.None?
    ensures var f := Exhausted(statusErr, lastErr, ctxErr);
            && f.status == (if statusErr.Some? then statusErr.value.status else None)
            && (ctxErr.Some? ==> Reaches(f, ctxErr.value))
            && (ctxErr.None? && lastErr.Some? && PlainStatus(statusErr)
                ==> KeepsSignals(f, statusErr.Some?, lastErr.value))
  {
  }

  // A sidecar status carries no context sentinel of its own.
  predicate PlainStatus(statusErr: Option<Fault>) {
    statusErr.Some? ==> !statusErr.value.deadline && !statusErr.value.cancelled
  }

  // What f says of the sentinels of the last attempt's error: both, unless a status is the
  // diagnosis, and then a deadline before a cancellation.
  predicate KeepsSignals(f: Fault, hasStatus: bool, last: Fault) {
    && (f.deadline <==> last.deadline)
    && (f.cancelled <==> last.cancelled && !(hasStatus && last.deadline))
  }

  lemma {:induction false} ClimbFacts(e: Env, n: nat, statusErr: Option<Fault>, lastErr: Option<Fault>)
    requires 1 <= n <= ATTEMPTS
    requires statusErr == (if LatestStatus(e, n - 1).Some? then Some(Fault(LatestStatus(e, n - 1), false, false))
                           else None)
    requires lastErr.None? <==> n == 1
    requires statusErr.None? && lastErr.Some? ==> lastErr.value.status.None?
    requires n > 1 ==> e.ctxInBackoff(n - 1).None? && (e.reply(n - 1).NoReply? || IsTransient(e.reply(n - 1).code))
                       && lastErr == Some(AttemptFault(e.reply(n - 1)))
    ensures var r := Climb(e, n, statusErr, lastErr);
            && n - 1 <= r.attempts <= ATTEMPTS
            && (r.ended.Failed? ==>
                  && r.ended.fault.status == LatestStatus(e, r.attempts)
                  && (EndedBy(e, r.attempts).Some? ==> Reaches(r.ended.fault, EndedBy(e, r.attempts).value))
                  && (EndedBy(e, r.attempts).None? ==>
                        && r.attempts == ATTEMPTS
                        && KeepsSignals(r.ended.fault, LatestStatus(e, ATTEMPTS).Some?,
                                        AttemptFault(e.reply(ATTEMPTS)))))
    decreases ATTEMPTS - n
  {
    if e.ctxAtStart(n).Some? {
      ExhaustedKeeps(statusErr, lastErr, e.ctxAtStart(n));
    } else if !e.buildFails && (e.reply(n).NoReply? || IsTransient(e.reply(n).code)) {
      var fault := AttemptFault(e.reply(n));
      var status := if fault.status.Some? then Some(fault) else statusErr;
      assert LatestStatus(e, n) == (if fault.status.Some? then fault.status else LatestStatus(e, n - 1));
      if n == ATTEMPTS {
        ExhaustedKeeps(status, Some(fault), None);
      } else if e.ctxInBackoff(n).Some? {
        ExhaustedKeeps(status, Some(fault), e.ctxInBackoff(n));
      } else {
        ClimbFacts(e, n + 1, status, Some(fault));
      }
    }
  }

  /** The ladder makes at most three attempts.  An error it ends with carries the latest
      transient status of any attempt.  When the context ended it before or between
      attempts, the context's sentinel is reachable.  When it ended with the third attempt,
      so is the sentinel of that attempt's error, whether its own bound or the parent
      context cut it: a deadline always, a cancellation exactly when not both a deadline
      and a status outrank it. */
  lemma LadderKeepsDiagnosis(e: Env)
    ensures var r := Ladder(e);
            && r.attempts <= 3
            && (r.ended.Failed? ==>
                  && r.ended.fault.status == LatestStatus(e, r.attempts)
                  && (EndedBy(e, r.attempts).Some? ==> Reaches(r.ended.fault, EndedBy(e, r.attempts).value))
                  && (EndedBy(e, r.attempts).None? ==>
                        && r.attempts == 3
                        && KeepsSignals(r.ended.fault, LatestStatus(e, 3).Some?, AttemptFault(e.reply(3)))))
  {
    ClimbFacts(e, 1, None, None);
  }

  /** A ladder that ends with a third attempt whose call got no reply.  Cut by the attempt's
      own bound under a live parent, it reaches a deadline and no cancellation.  Otherwise the
      call failed with an error of its own, as that of an ended parent, and the ladder reaches
      its expiry always, its cancellation exactly when not both an expiry and an earlier
      sidecar status are also there. */
  lemma ThirdAttemptWithoutReply(e: Env, err: Fault, attemptExpired: bool, parentLive: bool)
    requires e.reply(3) == NoReply(err, attemptExpired, parentLive)
    requires Ladder(e).ended.Failed? && Ladder(e).attempts == 3
    ensures var f := Ladder(e).ended.fault;
            if attemptExpired && parentLive then Reaches(f, DeadlineExceeded) && !Reaches(f, Canceled)
            else
              && (Reaches(f, DeadlineExceeded) <==> err.deadline)
              && (Reaches(f, Canceled) <==> err.cancelled && (!err.deadline || LatestStatus(e, 2).None?))
  {
    LadderKeepsDiagnosis(e);
    assert LatestStatus(e, 3) == LatestStatus(e, 2);
  }

  lemma {:induction false} ClimbAnswers(e: Env, n: nat, statusErr: Option<Fault>, lastErr: Option<Fault>)
    requires 1 <= n <= ATTEMPTS && !e.buildFails
    ensures Climb(e, n, statusErr, lastErr).ended.Answered? <==>
            exists k | n <= k <= ATTEMPTS :: AnswersAt(e, n, k)
    decreases ATTEMPTS - n
  {
    if e.ctxAtStart(n).Some? {
      forall k | n <= k <= ATTEMPTS ensures !AnswersAt(e, n, k) { assert Tried(e, n, k) ==> e.ctxAtStart(n).None?; }
    } else if e.reply(n).Replied? && !IsTransient(e.reply(n).code) {
      assert AnswersAt(e, n, n);
    } else if n < ATTEMPTS && e.ctxInBackoff(n).None? {
      ClimbAnswers(e, n + 1, if AttemptFault(e.reply(n)).status.Some? then Some(AttemptFault(e.reply(n)))
                   else statusErr, Some(AttemptFault(e.reply(n))));
      assert !AnswersAt(e, n, n);
      if k :| n <= k <= ATTEMPTS && AnswersAt(e, n, k) { assert AnswersAt(e, n + 1, k); }
      var m := n + 1;
      if k :| m <= k <= ATTEMPTS && AnswersAt(e, m, k) { assert AnswersAt(e, n, k); }
    } else {
      forall k | n <= k <= ATTEMPTS ensures !AnswersAt(e, n, k) { assert k > n ==> !Tried(e, n, k); }
    }
  }

  // Attempt k runs, every attempt from n before it having failed with the context live.
  predicate Tried(e: Env, n: nat, k: nat)
    requires n <= k
    decreases k - n
  {
    && e.ctxAtStart(n).None?
    && (n < k ==>
          && (e.reply(n).NoReply? || IsTransient(e.reply(n).code))
          && e.ctxInBackoff(n).None?
          && Tried(e, n + 1, k))
  }

  predicate AnswersAt(e: Env, n: nat, k: nat)
    requires n <= k
  {
    Tried(e, n, k) && e.reply(k).Replied? && !IsTransient(e.reply(k).code)
  }

  /** A request that can be built is answered exactly when one of the three attempts gets
      a non-transient status with the context live throughout until then. */
  lemma AnsweredExactlyWhen(e: Env)
    requires !e.buildFails
    ensures Ladder(e).ended.Answered? <==> exists k | 1 <= k <= ATTEMPTS :: AnswersAt(e, 1, k)
  {
    ClimbAnswers(e, 1, None, None);
  }

  lemma {:induction false} ClimbRuns(e: Env, n: nat, statusErr: Option<Fault>, lastErr: Option<Fault>, k: nat)
    requires 1 <= n <= k <= ATTEMPTS && !e.buildFails
    ensures var r := Climb(e, n, statusErr, lastErr);
            && (k <= r.attempts <==> Tried(e, n, k))
            && (r.ended.Answered? ==>
                  n <= r.attempts && AnswersAt(e, n, r.attempts) && e.reply(r.attempts) == Replied(r.ended.code))
    decreases ATTEMPTS - n
  {
    if e.ctxAtStart(n).None? && !(e.reply(n).Replied? && !IsTransient(e.reply(n).code)) && n < ATTEMPTS
       && e.ctxInBackoff(n).None? {
      var fault := AttemptFault(e.reply(n));
      ClimbRuns(e, n + 1, if fault.status.Some? then Some(fault) else statusErr, Some(fault),
                if k == n then n + 1 else k);
    }
  }

  /** The run attempt by attempt, of a request that can be built: attempt k is made exactly
      when every one before it failed transiently and the context was live throughout, and
      what the ladder answers with is the reply of its last one.  A context that is over
      before the first attempt is all such a ladder reports. */
  lemma MakesAttemptExactlyWhen(e: Env, k: nat)
    requires 1 <= k <= 3 && !e.buildFails
    ensures var r := Ladder(e);
            && (k <= r.attempts <==> Tried(e, 1, k))
            && (r.ended.Answered? ==>
                  && 1 <= r.attempts <= 3 && e.reply(r.attempts) == Replied(r.ended.code)
                  && AnswersAt(e, 1, r.attempts))
            && (r.attempts == 0 ==>
                  e.ctxAtStart(1).Some? && r.ended == Failed(OfSentinel(e.ctxAtStart(1).value)))
  {
    ClimbRuns(e, 1, None, None, k);
    if !Tried(e, 1, 1) { assert e.ctxAtStart(1).Some?; }
  }

  /** A request that cannot be built is given up on at its first attempt, unless the context
      was over before it. */
  lemma BuildErrorExactlyWhen(e: Env)
    ensures Ladder(e).ended.BuildError? <==> e.buildFails && e.ctxAtStart(1).None?
    ensures Ladder(e).ended.BuildError? ==> Ladder(e).attempts == 1
  {
    if !e.buildFails { ClimbBuilds(e, 1, None, None); }
  }

  lemma {:induction false} ClimbBuilds(e: Env, n: nat, statusErr: Option<Fault>, lastErr: Option<Fault>)
    requires 1 <= n <= ATTEMPTS && !e.buildFails
    ensures !Climb(e, n, statusErr, lastErr).ended.BuildError?
    decreases ATTEMPTS - n
  {
    if n < ATTEMPTS && e.ctxAtStart(n).None? && e.ctxInBackoff(n).None? {
      var fault := AttemptFault(e.reply(n));
      ClimbBuilds(e, n + 1, if fault.status.Some? then Some(fault) else statusErr, Some(fault));
    }
  }

  /** doPolicyRequest. */
  method DoPolicyRequest(e: Env) returns (ended: Ended, attempts: nat)
    ensures LadderRun(ended, attempts) == Ladder(e)
  {
    var lastErr: Option<Fault>, lastStatusErr: Option<Fault> := None, None;
    var attempt := 1;
    while true
      invariant 1 <= attempt <= ATTEMPTS
      invariant Climb(e, attempt, lastStatusErr, lastErr) == Ladder(e)
      decreases ATTEMPTS - attempt
    {
      if e.ctxAtStart(attempt).Some? {
        return Failed(Exhausted(lastStatusErr, lastErr, e.ctxAtStart(attempt))), attempt - 1;
      }
      if e.buildFails {
        return BuildError, attempt;
      }
      var reply := e.reply(attempt);
      if reply.Replied? && !IsTransient(reply.code) {
        return Answered(reply.code), attempt;
      }
      lastErr := Some(AttemptFault(reply));
      if lastErr.value.status.Some? {
        lastStatusErr := lastErr;
      }
      if attempt == ATTEMPTS {
        return Failed(Exhausted(lastStatusErr, lastErr, None)), attempt;
      }
      if e.ctxInBackoff(attempt).Some? {
        return Failed(Exhausted(lastStatusErr, lastErr, e.ctxInBackoff(attempt))), attempt;
      }
      attempt := attempt + 1;
    }
  }
}
