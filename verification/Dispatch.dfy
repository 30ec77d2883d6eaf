/** The failover engine of internal/proxy/fallback.go.

    `Dispatch` is the two nested loops of dispatchWithFallback as a function of an
    arbitrary environment: which bindings are configured, what every possible
    attempt would write and return, how long it takes, and whether a backoff sleep
    is interrupted.  `DispatchWithFallback` is the loops themselves over the mutable
    buffer, proved to compute that function.  The lemmas say what a caller and a
    client can rely on. */
module Dispatch {
  import opened Wrappers
  import opened PreludeBuffer

  // ------------------------------------------------------- error classes ----

  datatype Response = Response(status: int, body: Bytes)

  // What errors.Is and errors.As can find along one error chain.
  datatype Failure = Failure(
    headerTimeout: bool,          // a transport "timeout awaiting response headers"
    stalled: bool,                // one of the three upstream stall sentinels
    cancelled: bool,              // context.Canceled or context.DeadlineExceeded
    buffered: Option<Response>,   // *UpstreamErrorResponse
    flushed: Option<int>)         // *UpstreamStatusError

  predicate IsRetryableStatus(status: int) {
    status == 408 || status == 429 || 500 <= status <= 599
  }

  predicate IsRetryable(f: Failure) {
    if f.headerTimeout || f.stalled then true
    else if f.cancelled then false
    else if f.buffered.Some? then IsRetryableStatus(f.buffered.value.status)
    else f.flushed.None?
  }

  predicate IsModelNotFound(f: Failure) {
    f.buffered.Some? && f.buffered.value.status == 404
  }

  predicate IsBillingBlocked(f: Failure) {
    f.buffered.Some? && f.buffered.value.status == 402
  }

  predicate CanFailOver(f: Failure) {
    IsRetryable(f) || IsModelNotFound(f) || IsBillingBlocked(f)
  }

  /** A failure that carries an upstream answer and nothing else is retried on the same
      binding, or passed on to another one, by its status alone; an answer the client has
      been sent already, and a cancellation, never are; a stall always is. */
  lemma StatusDecides(f: Failure)
    ensures !f.headerTimeout && !f.stalled && !f.cancelled && f.buffered.Some? ==>
              var status := f.buffered.value.status;
              && (IsRetryable(f) <==> status == 408 || status == 429 || status / 100 == 5)
              && (CanFailOver(f) <==> status in {402, 404, 408, 429} || status / 100 == 5)
    ensures !f.headerTimeout && !f.stalled && f.buffered.None? && (f.cancelled || f.flushed.Some?) ==> !CanFailOver(f)
    ensures !f.cancelled && f.buffered.None? && f.flushed.None? ==> IsRetryable(f)
    ensures f.headerTimeout || f.stalled ==> IsRetryable(f)
  { }

  // ---------------------------------------------------------- environment ----

  const MAX_SAME_BINDING_RETRIES := 2
  const BACKOFF_BASE_MS := 250
  const RETRY_BUDGET_MS := 10000

  function Backoff(retry: nat): nat {
    if retry == 0 then BACKOFF_BASE_MS else 2 * Backoff(retry - 1)
  }

  datatype Attempt = Attempt(script: Script, failure: Option<Failure>, millis: nat)

  // What the error renderer does to the client writer.
  datatype Rendering = Rendering(dress: Headers -> Headers, events: seq<Event>)

  datatype Plan = Plan(
    bindings: seq<string>,                 // the provider of each binding
    model: string,
    userForced: bool,
    unavailable: Bytes,                    // the body of the forced-model 503
    hasRenderer: bool,
    defersRendering: bool,
    configured: nat -> bool,
    notConfigured: nat -> Failure,
    attempts: (nat, nat) -> Attempt,       // by binding and same-binding retry
    sleepInterrupted: nat -> bool,         // by same-binding retry
    windowText: string -> string,
    indexText: nat -> string,
    rendering: Failure -> Rendering)

  // One attempt that ran, and when it started, counted from its binding's start.
  datatype Run = Run(binding: nat, retry: nat, startedAt: nat)

  datatype Verdict = Verdict(winner: int, failure: Option<Failure>, log: seq<Run>, rendered: bool)

  datatype Outcome = Outcome(verdict: Verdict, sink: Sink)

  // --------------------------------------------------------- the two loops ----

  function RouterHeaders(p: Plan, i: nat): Headers
    requires i < |p.bindings|
  {
    var base := map["x-router-provider" := [p.bindings[i]]]["x-router-model" := [p.model]]
                ["x-router-context-window" := [p.windowText(p.bindings[i])]];
    if i > 0 then
      base["x-router-fallback-from" := [p.bindings[0]]]["x-router-fallback-attempt" := [p.indexText(i)]]
    else
      base
  }

  function Announce(p: Plan, i: nat, s: Sink): Sink
    requires i < |p.bindings|
  {
    if s.committed then s else s.(headers := s.headers + RouterHeaders(p, i))
  }

  // How the same-binding loop ended.
  datatype Ending =
    | Served
    | Torn(failure: Failure)          // failed after bytes reached the client
    | Interrupted(failure: Failure)   // the backoff sleep was cut short
    | GaveUp(failure: Failure)

  function EndingFailure(e: Ending): Option<Failure> {
    if e.Served? then None else Some(e.failure)
  }

  datatype BindingRun = BindingRun(ending: Ending, sink: Sink, log: seq<Run>)

  function Attempted(p: Plan, i: nat, retry: nat, s: Sink): Sink
    requires i < |p.bindings|
  {
    Execute(Announce(p, i, s), p.attempts(i, retry).script)
  }

  function RunBinding(p: Plan, i: nat, retry: nat, s: Sink, elapsed: nat): BindingRun
    requires i < |p.bindings| && retry <= MAX_SAME_BINDING_RETRIES
    decreases MAX_SAME_BINDING_RETRIES - retry
  {
    var a := p.attempts(i, retry);
    var ended := Attempted(p, i, retry, s);
    var here := [Run(i, retry, elapsed)];
    var spent := elapsed + a.millis;
    if a.failure.None? then BindingRun(Served, ended, here)
    else
      var f := a.failure.value;
      if ended.committed then BindingRun(Torn(f), ended, here)
      else if !IsRetryable(f) || retry >= MAX_SAME_BINDING_RETRIES || |p.bindings| > 1 || spent >= RETRY_BUDGET_MS then
        BindingRun(GaveUp(f), ended, here)
      else if p.sleepInterrupted(retry) then BindingRun(Interrupted(f), Discard(ended), here)
      else
        var rest := RunBinding(p, i, retry + 1, Discard(ended), spent + Backoff(retry));
        rest.(log := here + rest.log)
  }

  predicate Renders(p: Plan) {
    p.hasRenderer && !p.defersRendering
  }

  function Render(p: Plan, s: Sink, f: Failure): Sink {
    if Renders(p) then
      s.(headers := p.rendering(f).dress(s.headers), trace := s.trace + p.rendering(f).events)
    else s
  }

  function Logged(log: seq<Run>, o: Outcome): Outcome {
    o.(verdict := o.verdict.(log := log + o.verdict.log))
  }

  function Walk(p: Plan, i: nat, s: Sink): Outcome
    requires i < |p.bindings|
    decreases |p.bindings| - i
  {
    var s := if i > 0 then Discard(s) else s;
    if !p.configured(i) then
      if i < |p.bindings| - 1 then Walk(p, i + 1, s)
      else Outcome(Verdict(i, Some(p.notConfigured(i)), [], false), s)
    else
      var r := RunBinding(p, i, 0, s, 0);
      match r.ending
      case GaveUp(f) =>
        if !CanFailOver(f) || i == |p.bindings| - 1 then
          Outcome(Verdict(i, Some(f), r.log, Renders(p)), Render(p, Discard(r.sink), f))
        else
          Logged(r.log, Walk(p, i + 1, r.sink))
      case ending => Outcome(Verdict(i, EndingFailure(ending), r.log, false), r.sink)
  }

  function Unavailable(p: Plan): Failure {
    Failure(false, false, false, Some(Response(503, p.unavailable)), None)
  }

  function NoBinding(): Failure {
    Failure(false, false, false, None, Some(502))
  }

  function Dispatch(p: Plan, s: Sink): Outcome {
    if p.bindings == [] then
      if p.userForced then
        Outcome(Verdict(-1, Some(Unavailable(p)), [], Renders(p)), Render(p, s, Unavailable(p)))
      else
        Outcome(Verdict(-1, Some(NoBinding()), [], false), s)
    else
      Walk(p, 0, s)
  }

  // ----------------------------------------------------- what was attempted ----

  function AttemptOf(p: Plan, r: Run): Attempt {
    p.attempts(r.binding, r.retry)
  }

  // An attempt that failed without the client seeing anything of it.
  predicate Abandoned(p: Plan, r: Run) {
    AttemptOf(p, r).failure.Some? && !Commits(AttemptOf(p, r).script)
  }

  // The client's view of the last attempt that ran, if any ran.
  function LastShown(p: Plan, log: seq<Run>, canFlush: bool): seq<Event> {
    if log == [] then [] else ClientEvents(AttemptOf(p, log[|log| - 1]).script, canFlush)
  }

  function LastCommits(p: Plan, log: seq<Run>): bool {
    log != [] && Commits(AttemptOf(p, log[|log| - 1]).script)
  }

  predicate OnlyLastShown(p: Plan, log: seq<Run>) {
    forall k | 0 <= k < |log| - 1 :: Abandoned(p, log[k])
  }

  lemma SilentUnlessCommits(script: Script, canFlush: bool)
    requires !Commits(script)
    ensures ClientEvents(script, canFlush) == []
  {
  }

  // ------------------------------------------------- one binding's retries ----

  ghost predicate BindingFacts(p: Plan, i: nat, retry: nat, s: Sink, r: BindingRun)
  {
    && 1 <= |r.log| <= 3 - retry
    && (forall k | 0 <= k < |r.log| :: r.log[k].binding == i && r.log[k].retry == retry + k)
    && OnlyLastShown(p, r.log)
    && (|p.bindings| > 1 ==> |r.log| == 1)
    && r.sink.trace == s.trace + LastShown(p, r.log, s.canFlush)
    && (r.sink.committed <==> LastCommits(p, r.log))
    && r.sink.snapshot == s.snapshot && r.sink.canFlush == s.canFlush
    && var last := AttemptOf(p, r.log[|r.log| - 1]);
       && last.failure == EndingFailure(r.ending)
       && (r.ending.Torn? ==> LastCommits(p, r.log))
       && (r.ending.GaveUp? ==> !LastCommits(p, r.log))
       && (r.ending.Interrupted? ==> Ready(r.sink) && r.sink.headers == s.snapshot
                                     && IsRetryable(r.ending.failure) && |p.bindings| == 1)
  }

  // What one attempt leaves behind, started from a ready sink.
  ghost predicate AttemptFacts(p: Plan, i: nat, retry: nat, s: Sink, ended: Sink)
    requires i < |p.bindings|
  {
    var script := p.attempts(i, retry).script;
    && ended.trace == s.trace + ClientEvents(script, s.canFlush)
    && (ended.committed <==> Commits(script))
    && ended.snapshot == s.snapshot && ended.canFlush == s.canFlush
    && ended.headers == ApplyHeaders(s.headers + RouterHeaders(p, i), script)
    && (!ended.committed ==> ended.trace == s.trace)
  }

  lemma OneAttempt(p: Plan, i: nat, retry: nat, s: Sink)
    requires i < |p.bindings|
    requires Ready(s)
    ensures AttemptFacts(p, i, retry, s, Attempted(p, i, retry, s))
  {
    var start, script := Announce(p, i, s), p.attempts(i, retry).script;
    ExecuteShows(start, script);
    ExecuteHeaders(start, script);
    if !Commits(script) { SilentUnlessCommits(script, s.canFlush); }
  }

  lemma LastAttempt(p: Plan, i: nat, retry: nat, s: Sink, ended: Sink, elapsed: nat, ending: Ending)
    requires i < |p.bindings| && retry <= MAX_SAME_BINDING_RETRIES
    requires AttemptFacts(p, i, retry, s, ended)
    requires p.attempts(i, retry).failure == EndingFailure(ending)
    requires ending.Torn? ==> ended.committed
    requires ending.GaveUp? || ending.Interrupted? ==> !ended.committed
    requires ending.Interrupted? ==> IsRetryable(ending.failure) && |p.bindings| == 1
    ensures BindingFacts(p, i, retry, s,
              BindingRun(ending, if ending.Interrupted? then Discard(ended) else ended, [Run(i, retry, elapsed)]))
  {
    if ending.Interrupted? { DiscardReady(ended); }
  }

  // An abandoned attempt in front of a run of retries leaves its facts standing.
  lemma Retried(p: Plan, i: nat, retry: nat, s: Sink, clean: Sink, first: Run, rest: BindingRun)
    requires first.binding == i && first.retry == retry && Abandoned(p, first)
    requires |p.bindings| == 1
    requires clean.trace == s.trace && clean.snapshot == s.snapshot == clean.headers && clean.canFlush == s.canFlush
    requires BindingFacts(p, i, retry + 1, clean, rest)
    ensures BindingFacts(p, i, retry, s, rest.(log := [first] + rest.log))
  {
    var log := [first] + rest.log;
    forall k | 0 <= k < |log| - 1 ensures Abandoned(p, log[k]) {
      if k > 0 { assert log[k] == rest.log[k - 1]; }
    }
    forall k | 0 <= k < |log| ensures log[k].binding == i && log[k].retry == retry + k {
      if k > 0 { assert log[k] == rest.log[k - 1]; }
    }
    assert log[|log| - 1] == rest.log[|rest.log| - 1];
  }

  lemma {:induction false} BindingOutcome(p: Plan, i: nat, retry: nat, s: Sink, elapsed: nat)
    requires i < |p.bindings| && retry <= MAX_SAME_BINDING_RETRIES
    requires Ready(s)
    ensures BindingFacts(p, i, retry, s, RunBinding(p, i, retry, s, elapsed))
    decreases MAX_SAME_BINDING_RETRIES - retry
  {
    hide RunBinding, BindingFacts, Execute, RouterHeaders, Commits, ClientEvents, IsRetryable, Attempted;
    OneAttempt(p, i, retry, s);
    var ended, spent := Attempted(p, i, retry, s), elapsed + p.attempts(i, retry).millis;
    PassThenRest(p, i, retry, s, elapsed, spent);
    var (ending, clean) := AfterPass(p, i, retry, s, spent);
    if ending.Some? {
      LastAttempt(p, i, retry, s, ended, elapsed, ending.value);
    } else {
      DiscardReady(ended);
      BindingOutcome(p, i, retry + 1, clean, spent + Backoff(retry));
      Retried(p, i, retry, s, clean, Run(i, retry, elapsed),
              RunBinding(p, i, retry + 1, clean, spent + Backoff(retry)));
    }
  }

  // Entry k of a binding's log is a retry that began inside the budget plus its own
  // backoff, one backoff after the end of an attempt that failed with a retryable error.
  predicate TimelyRetry(p: Plan, log: seq<Run>, k: int)
    requires 1 <= k < |log|
  {
    && log[k].retry > 0
    && log[k].startedAt < RETRY_BUDGET_MS + Backoff(log[k].retry - 1)
    && log[k].startedAt == log[k - 1].startedAt + AttemptOf(p, log[k - 1]).millis + Backoff(log[k].retry - 1)
    && AttemptOf(p, log[k - 1]).failure.Some?
    && IsRetryable(AttemptOf(p, log[k - 1]).failure.value)
  }

  /** Every same-binding retry starts within the retry budget plus its own backoff,
      and the attempt before it failed with a retryable error. */
  lemma {:induction false} RetriesStayInBudget(p: Plan, i: nat, retry: nat, s: Sink, elapsed: nat)
    requires i < |p.bindings| && retry <= MAX_SAME_BINDING_RETRIES
    ensures var log := RunBinding(p, i, retry, s, elapsed).log;
            && log != [] && log[0] == Run(i, retry, elapsed)
            && forall k | 1 <= k < |log| :: TimelyRetry(p, log, k)
    decreases MAX_SAME_BINDING_RETRIES - retry
  {
    hide RunBinding, Execute, RouterHeaders, IsRetryable, Attempted, Backoff;
    var spent := elapsed + p.attempts(i, retry).millis;
    PassThenRest(p, i, retry, s, elapsed, spent);
    var (ending, clean) := AfterPass(p, i, retry, s, spent);
    if ending.None? {
      var log := RunBinding(p, i, retry, s, elapsed).log;
      var rest := RunBinding(p, i, retry + 1, clean, spent + Backoff(retry)).log;
      RetriesStayInBudget(p, i, retry + 1, clean, spent + Backoff(retry));
      assert log == [Run(i, retry, elapsed)] + rest;
      forall k | 1 <= k < |log| ensures TimelyRetry(p, log, k) {
        if k > 1 { assert TimelyRetry(p, rest, k - 1); }
      }
    }
  }

  /** A single binding gives up on a retryable error only once it has made all three
      attempts or spent the whole budget. */
  lemma {:induction false} GivesUpOnlyWhenSpent(p: Plan, i: nat, retry: nat, s: Sink, elapsed: nat)
    requires i < |p.bindings| == 1 && retry <= MAX_SAME_BINDING_RETRIES
    ensures var r := RunBinding(p, i, retry, s, elapsed);
            r.ending.GaveUp? && IsRetryable(r.ending.failure) && r.log != [] ==>
              var last := r.log[|r.log| - 1];
              last.retry == MAX_SAME_BINDING_RETRIES
              || last.startedAt + AttemptOf(p, last).millis >= RETRY_BUDGET_MS
    decreases MAX_SAME_BINDING_RETRIES - retry
  {
    hide RunBinding, Execute, RouterHeaders, IsRetryable, Attempted, Backoff;
    var spent := elapsed + p.attempts(i, retry).millis;
    PassThenRest(p, i, retry, s, elapsed, spent);
    var (ending, clean) := AfterPass(p, i, retry, s, spent);
    if ending.None? {
      GivesUpOnlyWhenSpent(p, i, retry + 1, clean, spent + Backoff(retry));
      RetriesStayInBudget(p, i, retry + 1, clean, spent + Backoff(retry));
    }
  }

  // The backoff after the last attempt was cut short, with attempts and budget left.
  predicate CutShort(p: Plan, log: seq<Run>) {
    && |p.bindings| == 1 && log != []
    && var last := log[|log| - 1];
       var a := AttemptOf(p, last);
       && a.failure.Some? && IsRetryable(a.failure.value) && !Commits(a.script)
       && last.retry < MAX_SAME_BINDING_RETRIES && last.startedAt + a.millis < RETRY_BUDGET_MS
       && p.sleepInterrupted(last.retry)
  }

  lemma {:induction false} InterruptedExactlyWhen(p: Plan, i: nat, retry: nat, s: Sink, elapsed: nat)
    requires i < |p.bindings| && retry <= MAX_SAME_BINDING_RETRIES && Ready(s)
    ensures var r := RunBinding(p, i, retry, s, elapsed);
            r.log != [] && (r.ending.Interrupted? <==> CutShort(p, r.log))
    decreases MAX_SAME_BINDING_RETRIES - retry
  {
    hide RunBinding, Execute, RouterHeaders, Commits, ClientEvents, IsRetryable, Attempted, Backoff;
    OneAttempt(p, i, retry, s);
    var spent := elapsed + p.attempts(i, retry).millis;
    PassThenRest(p, i, retry, s, elapsed, spent);
    var (ending, clean) := AfterPass(p, i, retry, s, spent);
    if ending.None? {
      DiscardReady(Attempted(p, i, retry, s));
      InterruptedExactlyWhen(p, i, retry + 1, clean, spent + Backoff(retry));
      var log, rest := RunBinding(p, i, retry, s, elapsed).log,
                       RunBinding(p, i, retry + 1, clean, spent + Backoff(retry)).log;
      assert log[|log| - 1] == rest[|rest| - 1];
    }
  }

  // ------------------------------------------------------ the whole dispatch ----

  function RenderedEvents(p: Plan, v: Verdict): seq<Event> {
    if v.rendered && v.failure.Some? then p.rendering(v.failure.value).events else []
  }

  // What holds of a walk that starts with nothing shown.
  ghost predicate WalkFacts(p: Plan, i: int, s: Sink, o: Outcome)
  {
    var v := o.verdict;
    && OnlyLastShown(p, v.log)
    && i <= v.winner
    && (forall k | 0 <= k < |v.log| :: i <= v.log[k].binding <= v.winner)
    && o.sink.trace == s.trace + LastShown(p, v.log, s.canFlush) + RenderedEvents(p, v)
    && (o.sink.committed <==> LastCommits(p, v.log))
    && (v.rendered ==> v.failure.Some? && !LastCommits(p, v.log) && Renders(p))
    && (v.failure.None? ==> v.log != [] && v.log[|v.log| - 1].binding == v.winner
                            && AttemptOf(p, v.log[|v.log| - 1]).failure == None)
    && o.sink.snapshot == s.snapshot && o.sink.canFlush == s.canFlush
  }

  // How a walk may go on from a binding whose retries ended as r.
  ghost predicate BindingEnds(p: Plan, i: nat, s: Sink, r: BindingRun)
  {
    && (!r.ending.GaveUp? ==>
          WalkFacts(p, i, s, Outcome(Verdict(i, EndingFailure(r.ending), r.log, false), r.sink)))
    && (r.ending.GaveUp? ==>
          && WalkFacts(p, i, s, Outcome(Verdict(i, Some(r.ending.failure), r.log, Renders(p)),
                                        Render(p, Discard(r.sink), r.ending.failure)))
          && r.sink.trace == s.trace && !r.sink.committed
          && r.sink.snapshot == s.snapshot && r.sink.canFlush == s.canFlush
          && (forall k | 0 <= k < |r.log| :: Abandoned(p, r.log[k]) && r.log[k].binding == i))
  }

  lemma EndsAtBinding(p: Plan, i: nat, s: Sink)
    requires i < |p.bindings| && p.configured(i)
    requires Ready(s)
    ensures BindingEnds(p, i, s, RunBinding(p, i, 0, s, 0))
  {
    hide RunBinding, Execute, RouterHeaders, Commits, ClientEvents, IsRetryable;
    BindingOutcome(p, i, 0, s, 0);
    var r := RunBinding(p, i, 0, s, 0);
    if r.ending.GaveUp? {
      SilentUnlessCommits(AttemptOf(p, r.log[|r.log| - 1]).script, s.canFlush);
      DiscardReady(r.sink);
    }
  }

  function Continue(p: Plan, i: nat, r: BindingRun, rest: Outcome): Outcome {
    if !r.ending.GaveUp? then Outcome(Verdict(i, EndingFailure(r.ending), r.log, false), r.sink)
    else if !CanFailOver(r.ending.failure) || i >= |p.bindings| - 1 then
      Outcome(Verdict(i, Some(r.ending.failure), r.log, Renders(p)), Render(p, Discard(r.sink), r.ending.failure))
    else Logged(r.log, rest)
  }

  lemma Continues(p: Plan, i: nat, t: Sink, r: BindingRun, rest: Outcome)
    requires BindingEnds(p, i, t, r)
    requires r.ending.GaveUp? && i < |p.bindings| - 1 ==> WalkFacts(p, i + 1, r.sink, rest)
    ensures WalkFacts(p, i, t, Continue(p, i, r, rest))
  {
    if r.ending.GaveUp? && CanFailOver(r.ending.failure) && i < |p.bindings| - 1 {
      Prefixed(p, i, t, r, rest);
    }
  }

  lemma WalkAt(p: Plan, i: nat, s: Sink, t: Sink, r: BindingRun, rest: Outcome)
    requires i < |p.bindings| && p.configured(i)
    requires t == (if i > 0 then Discard(s) else s) && r == RunBinding(p, i, 0, t, 0)
    requires i < |p.bindings| - 1 ==> rest == Walk(p, i + 1, r.sink)
    ensures Walk(p, i, s) == Continue(p, i, r, rest)
  {
  }

  lemma {:induction false} WalkOutcome(p: Plan, i: nat, s: Sink)
    requires i < |p.bindings|
    requires !s.committed && (i == 0 ==> Ready(s))
    ensures WalkFacts(p, i, s, Walk(p, i, s))
    decreases |p.bindings| - i
  {
    hide RunBinding, Execute, RouterHeaders, Commits, ClientEvents, IsRetryable, Continue, Abandoned;
    DiscardReady(s);
    var t := if i > 0 then Discard(s) else s;
    if !p.configured(i) {
      if i < |p.bindings| - 1 { WalkOutcome(p, i + 1, t); }
    } else {
      EndsAtBinding(p, i, t);
      var r := RunBinding(p, i, 0, t, 0);
      var rest := if i < |p.bindings| - 1 then Walk(p, i + 1, r.sink) else Outcome(Verdict(i, None, [], false), t);
      WalkAt(p, i, s, t, r, rest);
      if r.ending.GaveUp? && i < |p.bindings| - 1 { WalkOutcome(p, i + 1, r.sink); }
      Continues(p, i, t, r, rest);
      SameStart(p, i, s, t, Walk(p, i, s));
    }
  }

  lemma SameStart(p: Plan, i: nat, s: Sink, t: Sink, o: Outcome)
    requires WalkFacts(p, i, t, o)
    requires t.trace == s.trace && t.snapshot == s.snapshot && t.canFlush == s.canFlush
    ensures WalkFacts(p, i, s, o)
  {
  }

  // Abandoned attempts in front of a walk change nothing of what it shows.
  lemma Prefixed(p: Plan, i: nat, t: Sink, r: BindingRun, o: Outcome)
    requires WalkFacts(p, i + 1, r.sink, o)
    requires forall k | 0 <= k < |r.log| :: Abandoned(p, r.log[k]) && r.log[k].binding == i
    requires i < o.verdict.winner
    requires r.sink.trace == t.trace && r.sink.snapshot == t.snapshot && r.sink.canFlush == t.canFlush
    ensures WalkFacts(p, i, t, Logged(r.log, o))
  {
    var v, w := o.verdict, Logged(r.log, o).verdict;
    assert w.log == r.log + v.log;
    forall k | 0 <= k < |w.log| - 1 ensures Abandoned(p, w.log[k]) {
      if k >= |r.log| { assert w.log[k] == v.log[k - |r.log|]; }
    }
    if v.log == [] {
      assert w.log == r.log;
      if r.log != [] { SilentUnlessCommits(AttemptOf(p, r.log[|r.log| - 1]).script, t.canFlush); }
    } else {
      assert w.log[|w.log| - 1] == v.log[|v.log| - 1];
    }
  }

  /** However many attempts ran, the client sees the events of at most one of them,
      the last; it sees the error renderer at most once, and never after an attempt
      that showed anything. */
  lemma ClientSeesOneAttempt(p: Plan, s: Sink)
    requires Ready(s)
    ensures var o := Dispatch(p, s);
            && OnlyLastShown(p, o.verdict.log)
            && o.sink.trace == s.trace + LastShown(p, o.verdict.log, s.canFlush) + RenderedEvents(p, o.verdict)
            && (o.sink.committed <==> LastCommits(p, o.verdict.log))
            && (o.verdict.rendered ==> o.verdict.failure.Some? && !o.sink.committed)
  {
    if p.bindings != [] { WalkOutcome(p, 0, s); }
  }

  // ------------------------------------------------ who wins, and what ran ----

  // A binding a walk over several bindings leaves behind: unconfigured, or failed
  // failably with nothing shown.
  predicate PassedOver(p: Plan, j: nat) {
    || !p.configured(j)
    || (var a := p.attempts(j, 0);
        a.failure.Some? && CanFailOver(a.failure.value) && !Commits(a.script))
  }

  // One attempt at each configured binding from i to w.
  function Tried(p: Plan, i: nat, w: nat): seq<Run>
    decreases w + 1 - i
  {
    if i > w then []
    else (if p.configured(i) then [Run(i, 0, 0)] else []) + Tried(p, i + 1, w)
  }

  ghost predicate SettlesAt(p: Plan, i: nat, v: Verdict)
  {
    && i <= v.winner < |p.bindings|
    && (forall j: nat | i <= j < v.winner :: PassedOver(p, j))
    && (PassedOver(p, v.winner) ==> v.winner == |p.bindings| - 1)
    && v.failure == (if p.configured(v.winner) then p.attempts(v.winner, 0).failure
                     else Some(p.notConfigured(v.winner)))
    && v.log == Tried(p, i, v.winner)
  }

  lemma SingleAttempt(p: Plan, i: nat, s: Sink)
    requires i < |p.bindings| && |p.bindings| > 1 && Ready(s)
    ensures var r := RunBinding(p, i, 0, s, 0);
            && r.log == [Run(i, 0, 0)]
            && EndingFailure(r.ending) == p.attempts(i, 0).failure
            && (r.ending.GaveUp? <==> p.attempts(i, 0).failure.Some? && !Commits(p.attempts(i, 0).script))
            && (!r.ending.Served? && !r.ending.GaveUp? ==> r.ending.Torn?)
            && (r.ending.GaveUp? ==> !r.sink.committed)
  {
    OneAttempt(p, i, 0, s);
  }

  lemma Settles(p: Plan, i: nat, r: BindingRun, rest: Outcome)
    requires i < |p.bindings| && |p.bindings| > 1 && p.configured(i)
    requires r.log == [Run(i, 0, 0)] && EndingFailure(r.ending) == p.attempts(i, 0).failure
    requires r.ending.GaveUp? <==> p.attempts(i, 0).failure.Some? && !Commits(p.attempts(i, 0).script)
    requires i < |p.bindings| - 1 && r.ending.GaveUp? ==> SettlesAt(p, i + 1, rest.verdict)
    ensures SettlesAt(p, i, Continue(p, i, r, rest).verdict)
  {
    assert Tried(p, i, i) == [Run(i, 0, 0)] + Tried(p, i + 1, i);
  }

  lemma {:induction false} WalkSettles(p: Plan, i: nat, s: Sink)
    requires i < |p.bindings| && |p.bindings| > 1
    requires !s.committed && (i == 0 ==> Ready(s))
    ensures SettlesAt(p, i, Walk(p, i, s).verdict)
    decreases |p.bindings| - i
  {
    DiscardReady(s);
    var t := if i > 0 then Discard(s) else s;
    if !p.configured(i) {
      if i < |p.bindings| - 1 {
        WalkSettles(p, i + 1, t);
      }
    } else {
      SingleAttempt(p, i, t);
      var r := RunBinding(p, i, 0, t, 0);
      var rest := if i < |p.bindings| - 1 then Walk(p, i + 1, r.sink) else Outcome(Verdict(i, None, [], false), t);
      WalkAt(p, i, s, t, r, rest);
      if r.ending.GaveUp? && i < |p.bindings| - 1 { WalkSettles(p, i + 1, r.sink); }
      Settles(p, i, r, rest);
    }
  }

  /** With several bindings, each configured binding up to the winner is attempted
      exactly once, in order.  The winner is the first binding not passed over, or the
      last binding when all were, and its own result is the result. */
  lemma FirstServiceableBindingWins(p: Plan, s: Sink)
    requires |p.bindings| > 1 && Ready(s)
    ensures SettlesAt(p, 0, Dispatch(p, s).verdict)
  {
    WalkSettles(p, 0, s);
  }

  /** With several bindings a dispatch succeeds exactly when some configured binding
      would, with every binding before it passed over. */
  lemma SucceedsExactlyWhen(p: Plan, s: Sink)
    requires |p.bindings| > 1 && Ready(s)
    ensures Dispatch(p, s).verdict.failure.None? <==>
            exists w: nat | w < |p.bindings| ::
              && p.configured(w) && p.attempts(w, 0).failure.None?
              && forall j: nat | j < w :: PassedOver(p, j)
  {
    WalkSettles(p, 0, s);
    var v := Dispatch(p, s).verdict;
    if v.failure.None? {
      assert p.configured(v.winner) && forall j: nat | j < v.winner :: PassedOver(p, j);
    }
    forall w: nat | w < |p.bindings| && p.configured(w) && p.attempts(w, 0).failure.None?
                    && (forall j: nat | j < w :: PassedOver(p, j))
      ensures v.failure.None?
    {
      assert !PassedOver(p, w);
    }
  }

  /** A single binding is attempted one to three times; each retry follows a retryable
      failure, 250 and then 500 milliseconds after it, and starts in time, the last
      attempt's result is the result, and a
      retryable failure is given up on only when the attempts or the budget are spent
      or the backoff was interrupted. */
  lemma SingleBindingRetries(p: Plan, s: Sink)
    requires |p.bindings| == 1 && p.configured(0) && Ready(s)
    ensures var v := Dispatch(p, s).verdict;
            && v.winner == 0 && 1 <= |v.log| <= 3
            && (forall k | 0 <= k < |v.log| :: v.log[k].binding == 0 && v.log[k].retry == k)
            && (forall k | 1 <= k < |v.log| :: TimelyRetry(p, v.log, k))
            && v.log[0].startedAt == 0
            && (|v.log| > 1 ==> v.log[1].startedAt == p.attempts(0, 0).millis + 250)
            && (|v.log| > 2 ==> v.log[2].startedAt == p.attempts(0, 0).millis + 250 + p.attempts(0, 1).millis + 500)
            && v.failure == AttemptOf(p, v.log[|v.log| - 1]).failure
            && (v.failure.Some? && IsRetryable(v.failure.value) && !LastCommits(p, v.log) && |v.log| < 3 ==>
                  || v.log[|v.log| - 1].startedAt + AttemptOf(p, v.log[|v.log| - 1]).millis >= RETRY_BUDGET_MS
                  || p.sleepInterrupted(|v.log| - 1))
  {
    hide RunBinding, Execute, RouterHeaders, Commits, ClientEvents, IsRetryable, Walk, TimelyRetry, Backoff;
    BindingOutcome(p, 0, 0, s, 0);
    RetriesStayInBudget(p, 0, 0, s, 0);
    GivesUpOnlyWhenSpent(p, 0, 0, s, 0);
    var r := RunBinding(p, 0, 0, s, 0);
    WalkAt(p, 0, s, s, r, Outcome(Verdict(0, None, [], false), s));
    RetriesAreSpaced(p, r.log);
    if r.ending.Interrupted? {
      InterruptedAsleep(p, 0, 0, s, 0);
    }
  }

  lemma RetriesAreSpaced(p: Plan, log: seq<Run>)
    requires 1 <= |log| <= 3 && log[0] == Run(0, 0, 0)
    requires forall k | 0 <= k < |log| :: log[k].binding == 0 && log[k].retry == k
    requires forall k | 1 <= k < |log| :: TimelyRetry(p, log, k)
    ensures |log| > 1 ==> log[1].startedAt == p.attempts(0, 0).millis + 250
    ensures |log| > 2 ==> log[2].startedAt == p.attempts(0, 0).millis + 250 + p.attempts(0, 1).millis + 500
  {
    if |log| > 1 { assert TimelyRetry(p, log, 1); }
    if |log| > 2 { assert TimelyRetry(p, log, 2); }
  }

  lemma {:induction false} InterruptedAsleep(p: Plan, i: nat, retry: nat, s: Sink, elapsed: nat)
    requires i < |p.bindings| && retry <= MAX_SAME_BINDING_RETRIES
    ensures var r := RunBinding(p, i, retry, s, elapsed);
            r.ending.Interrupted? ==> r.log != [] && p.sleepInterrupted(retry + |r.log| - 1)
    decreases MAX_SAME_BINDING_RETRIES - retry
  {
    hide Execute, RouterHeaders, IsRetryable, Attempted, Backoff;
    var a := p.attempts(i, retry);
    var ended, spent := Attempted(p, i, retry, s), elapsed + a.millis;
    if a.failure.Some? && !ended.committed && IsRetryable(a.failure.value) && retry < MAX_SAME_BINDING_RETRIES
       && |p.bindings| == 1 && spent < RETRY_BUDGET_MS && !p.sleepInterrupted(retry) {
      InterruptedAsleep(p, i, retry + 1, Discard(ended), spent + Backoff(retry));
    }
  }

  // ------------------------------------------------------ who renders an error ----

  ghost predicate RendersFrom(p: Plan, i: nat, o: Outcome) {
    && i <= o.verdict.winner < |p.bindings|
    && (o.verdict.rendered <==>
          && Renders(p) && o.verdict.failure.Some? && !o.sink.committed
          && p.configured(o.verdict.winner) && !CutShort(p, o.verdict.log))
  }

  lemma {:induction false} WalkRenders(p: Plan, i: nat, s: Sink)
    requires i < |p.bindings| && !s.committed && (i == 0 ==> Ready(s))
    ensures RendersFrom(p, i, Walk(p, i, s))
    decreases |p.bindings| - i
  {
    hide RunBinding, Execute, RouterHeaders, Commits, ClientEvents, IsRetryable, Abandoned;
    DiscardReady(s);
    var t := if i > 0 then Discard(s) else s;
    if !p.configured(i) {
      WalkUnconfigured(p, i, s);
      if i < |p.bindings| - 1 { WalkRenders(p, i + 1, t); }
    } else {
      BindingOutcome(p, i, 0, t, 0);
      InterruptedExactlyWhen(p, i, 0, t, 0);
      var r := RunBinding(p, i, 0, t, 0);
      var rest := if i < |p.bindings| - 1 then Walk(p, i + 1, r.sink) else Outcome(Verdict(i, None, [], false), t);
      WalkAt(p, i, s, t, r, rest);
      if r.ending.GaveUp? && i < |p.bindings| - 1 { WalkRenders(p, i + 1, r.sink); }
    }
  }

  /** Exactly when the error renderer writes: the dispatch failed with nothing shown, the
      renderer is there and not deferred, and the failure is not that of an unconfigured
      last binding, of a backoff cut short, or of an empty list the user did not force. */
  lemma RenderedExactlyWhen(p: Plan, s: Sink)
    requires Ready(s)
    ensures var o := Dispatch(p, s);
            && (p.bindings != [] ==> 0 <= o.verdict.winner < |p.bindings|)
            && (o.verdict.rendered <==>
                  && p.hasRenderer && !p.defersRendering && o.verdict.failure.Some? && !o.sink.committed
                  && (if p.bindings == [] then p.userForced
                      else p.configured(o.verdict.winner) && !CutShort(p, o.verdict.log)))
  {
    if p.bindings != [] { WalkRenders(p, 0, s); }
  }

  /** Where nothing can be attempted the caller still gets a failure of its own and the
      client nothing but a rendering: a 503 naming the forced model or a bare 502 for an
      empty list, and the missing provider's own failure for a sole unconfigured binding. */
  lemma NothingToAttempt(p: Plan, s: Sink)
    requires p.bindings == [] || (|p.bindings| == 1 && !p.configured(0))
    ensures var o := Dispatch(p, s); var v := o.verdict;
            && v.log == [] && v.winner == |p.bindings| - 1 && v.failure.Some?
            && (p.bindings == [] ==>
                  && (v.failure.value.buffered == if p.userForced then Some(Response(503, p.unavailable)) else None)
                  && (v.failure.value.flushed == if p.userForced then None else Some(502))
                  && !v.failure.value.headerTimeout && !v.failure.value.stalled && !v.failure.value.cancelled
                  && (CanFailOver(v.failure.value) <==> p.userForced))
            && (p.bindings != [] ==> v.failure.value == p.notConfigured(0))
            && (!v.rendered ==> o.sink == s)
  { }

  // ---------------------------------------------------------------- headers ----

  // The header map an attempt of a dispatch begins with.
  function StartingHeaders(p: Plan, s: Sink, r: Run): Headers
    requires r.binding < |p.bindings|
  {
    (if r.binding == 0 && r.retry == 0 then s.headers else s.snapshot) + RouterHeaders(p, r.binding)
  }

  ghost predicate HeaderFacts(p: Plan, s: Sink, v: Verdict, sink: Sink)
  {
    && (forall k | 0 <= k < |v.log| :: v.log[k].binding < |p.bindings|)
    && (v.failure.None? || sink.committed ==>
          v.log != [] &&
          var last := v.log[|v.log| - 1];
          sink.headers == ApplyHeaders(StartingHeaders(p, s, last), AttemptOf(p, last).script))
    && (v.failure.Some? && !sink.committed ==>
          && Ready(sink)
          && var left := if v.log == [] && |p.bindings| == 1 then s.headers else s.snapshot;
             sink.headers == if v.rendered then p.rendering(v.failure.value).dress(left) else left)
  }

  lemma {:induction false} BindingHeaders(p: Plan, i: nat, retry: nat, s: Sink, elapsed: nat)
    requires i < |p.bindings| && retry <= MAX_SAME_BINDING_RETRIES
    requires Ready(s)
    ensures var r := RunBinding(p, i, retry, s, elapsed);
            && |r.log| >= 1
            && (|r.log| > 1 ==> r.log[|r.log| - 1].retry > 0)
            && (!r.ending.Interrupted? ==>
                  r.sink.headers == ApplyHeaders((if |r.log| == 1 then s.headers else s.snapshot) + RouterHeaders(p, i),
                                                 AttemptOf(p, r.log[|r.log| - 1]).script))
    decreases MAX_SAME_BINDING_RETRIES - retry
  {
    hide RunBinding, Execute, RouterHeaders, Commits, ClientEvents, IsRetryable, Attempted, ApplyHeaders;
    OneAttempt(p, i, retry, s);
    var spent := elapsed + p.attempts(i, retry).millis;
    PassThenRest(p, i, retry, s, elapsed, spent);
    var (ending, clean) := AfterPass(p, i, retry, s, spent);
    if ending.None? {
      DiscardReady(Attempted(p, i, retry, s));
      BindingHeaders(p, i, retry + 1, clean, spent + Backoff(retry));
      BindingOutcome(p, i, retry + 1, clean, spent + Backoff(retry));
    }
  }

  lemma HeadersAt(p: Plan, i: nat, s0: Sink, t: Sink, r: BindingRun, rest: Outcome)
    requires i < |p.bindings|
    requires Ready(t) && t.snapshot == s0.snapshot && t.headers == (if i == 0 then s0.headers else s0.snapshot)
    requires r == RunBinding(p, i, 0, t, 0)
    requires i < |p.bindings| - 1 ==> HeaderFacts(p, s0, rest.verdict, rest.sink)
    ensures HeaderFacts(p, s0, Continue(p, i, r, rest).verdict, Continue(p, i, r, rest).sink)
  {
    hide RunBinding, Execute, RouterHeaders, Commits, ClientEvents, IsRetryable, Attempted, ApplyHeaders;
    BindingHeaders(p, i, 0, t, 0);
    BindingOutcome(p, i, 0, t, 0);
    if r.ending.GaveUp? {
      DiscardReady(r.sink);
      if CanFailOver(r.ending.failure) && i < |p.bindings| - 1 && rest.verdict.log != [] {
        var log := r.log + rest.verdict.log;
        assert log[|log| - 1] == rest.verdict.log[|rest.verdict.log| - 1];
      }
    }
  }

  lemma {:induction false} WalkHeaders(p: Plan, i: nat, s0: Sink, s: Sink)
    requires i < |p.bindings|
    requires !s.committed && (i == 0 ==> Ready(s) && s == s0) && s.snapshot == s0.snapshot
    ensures HeaderFacts(p, s0, Walk(p, i, s).verdict, Walk(p, i, s).sink)
    decreases |p.bindings| - i
  {
    DiscardReady(s);
    var t := if i > 0 then Discard(s) else s;
    if !p.configured(i) {
      if i < |p.bindings| - 1 { WalkHeaders(p, i + 1, s0, t); }
    } else {
      BindingOutcome(p, i, 0, t, 0);
      var r := RunBinding(p, i, 0, t, 0);
      var rest := if i < |p.bindings| - 1 then Walk(p, i + 1, r.sink) else Outcome(Verdict(i, None, [], false), t);
      WalkAt(p, i, s, t, r, rest);
      if r.ending.GaveUp? {
        if i < |p.bindings| - 1 { WalkHeaders(p, i + 1, s0, r.sink); }
        HeadersAt(p, i, s0, t, r, rest);
      } else {
        HeadersFinal(p, i, s0, t, r, rest);
      }
    }
  }

  lemma HeadersFinal(p: Plan, i: nat, s0: Sink, t: Sink, r: BindingRun, rest: Outcome)
    requires i < |p.bindings| && !r.ending.GaveUp?
    requires Ready(t) && t.snapshot == s0.snapshot && t.headers == (if i == 0 then s0.headers else s0.snapshot)
    requires r == RunBinding(p, i, 0, t, 0)
    ensures HeaderFacts(p, s0, Continue(p, i, r, rest).verdict, Continue(p, i, r, rest).sink)
  {
    BindingHeaders(p, i, 0, t, 0);
    BindingOutcome(p, i, 0, t, 0);
  }

  /** No header of a failed attempt survives.  When an attempt served, or showed
      anything, the header map is the router's own headers for its binding over a
      clean start, changed by that attempt's calls alone.  Otherwise it is the
      snapshot the buffer was built with, dressed only by the error renderer, and the
      buffer is ready for another dispatch. */
  lemma OnlyTheLastAttemptDressesHeaders(p: Plan, s: Sink)
    requires Ready(s) && p.bindings != []
    ensures HeaderFacts(p, s, Dispatch(p, s).verdict, Dispatch(p, s).sink)
  {
    WalkHeaders(p, 0, s, s);
  }

  predicate LeavesHeadersAlone(script: Script) {
    forall op | op in script :: !op.SetHeader? && !op.DelHeader?
  }

  lemma {:induction false} NoHeaderCalls(h: Headers, script: Script)
    requires LeavesHeadersAlone(script)
    ensures ApplyHeaders(h, script) == h
    decreases |script|
  {
    if script != [] {
      assert script[0] in script && forall op | op in script[1..] :: op in script;
      NoHeaderCalls(h, script[1..]);
    }
  }

  /** A client that was shown anything is told who showed it: under an attempt that sets no
      headers itself, the provider header names the binding that attempt ran on, the model
      header the model, and the fallback headers say from where, and only when, the dispatch
      fell over from its first binding. */
  lemma HeadersNameTheBinding(p: Plan, s: Sink)
    requires Ready(s) && p.bindings != [] && (Dispatch(p, s).verdict.failure.None? || Dispatch(p, s).sink.committed)
    ensures var o := Dispatch(p, s); var log := o.verdict.log;
            log != [] && log[|log| - 1].binding < |p.bindings| &&
            (LeavesHeadersAlone(AttemptOf(p, log[|log| - 1]).script) ==>
              var i := log[|log| - 1].binding;
              var h := o.sink.headers;
              && {"x-router-provider", "x-router-model", "x-router-context-window"} <= h.Keys
              && h["x-router-provider"] == [p.bindings[i]] && h["x-router-model"] == [p.model]
              && h["x-router-context-window"] == [p.windowText(p.bindings[i])]
              && (i > 0 ==> {"x-router-fallback-from", "x-router-fallback-attempt"} <= h.Keys
                            && h["x-router-fallback-from"] == [p.bindings[0]]
                            && h["x-router-fallback-attempt"] == [p.indexText(i)])
              && (i == 0 && "x-router-fallback-from" !in s.headers && "x-router-fallback-from" !in s.snapshot ==>
                    "x-router-fallback-from" !in h))
  {
    OnlyTheLastAttemptDressesHeaders(p, s);
    var o := Dispatch(p, s);
    var last := o.verdict.log[|o.verdict.log| - 1];
    if LeavesHeadersAlone(AttemptOf(p, last).script) {
      NoHeaderCalls(StartingHeaders(p, s, last), AttemptOf(p, last).script);
    }
  }

  // ---------------------------------------------------------- sibling rescue ----

  // What ProxyMessages has to fall back on once a dispatch failed.
  datatype Rescue = NotViable | Viable(plan: Plan, built: bool)

  // The primary dispatch; a request the routed model intrinsically cannot take is not built,
  // and enters the chain as a failure of no binding, nothing having been dispatched.
  function First(primary: Plan, unbuilt: Option<Failure>, rescue: Rescue, s: Sink): Outcome {
    if unbuilt.Some? then Outcome(Verdict(-1, unbuilt, [], false), s)
    else Dispatch(primary.(hasRenderer := true, defersRendering := rescue.Viable?), s)
  }

  // The primary dispatch, and after it the sibling's when one is viable.  A viable
  // sibling defers the primary's error; the error is rendered by whoever ends the
  // chain.
  function Serve(primary: Plan, unbuilt: Option<Failure>, rescue: Rescue, schemaRejected: bool, s: Sink)
    : (Outcome, Option<Outcome>, bool)
  {
    var o := First(primary, unbuilt, rescue, s);
    var owed := rescue.Viable? && o.verdict.failure.Some? && !o.sink.committed;
    if owed && (CanFailOver(o.verdict.failure.value) || schemaRejected) && rescue.built
      && rescue.plan.bindings != [] then
      (o, Some(Dispatch(rescue.plan.(hasRenderer := true, defersRendering := false), o.sink)), false)
    else
      (o, None, owed)
  }

  function ServedSink(primary: Plan, unbuilt: Option<Failure>, rescue: Rescue, schemaRejected: bool, s: Sink): Sink {
    var (o, sibling, flushes) := Serve(primary, unbuilt, rescue, schemaRejected, s);
    if sibling.Some? then sibling.value.sink
    else if flushes && o.verdict.failure.Some? then
      Render(primary.(hasRenderer := true, defersRendering := false), o.sink, o.verdict.failure.value)
    else o.sink
  }

  // The events of the attempt that ran last over the whole chain, if it committed.
  function ChainShown(primary: Plan, unbuilt: Option<Failure>, rescue: Rescue, schemaRejected: bool,
                      s: Sink): seq<Event> {
    var (o, sibling, _) := Serve(primary, unbuilt, rescue, schemaRejected, s);
    if sibling.Some? && rescue.Viable? then LastShown(rescue.plan, sibling.value.verdict.log, s.canFlush)
    else LastShown(primary, o.verdict.log, s.canFlush)
  }

  function ChainRendered(primary: Plan, unbuilt: Option<Failure>, rescue: Rescue, schemaRejected: bool,
                         s: Sink): seq<Event> {
    var (o, sibling, flushes) := Serve(primary, unbuilt, rescue, schemaRejected, s);
    if sibling.Some? && rescue.Viable? then RenderedEvents(rescue.plan, sibling.value.verdict)
    else if flushes && o.verdict.failure.Some? then primary.rendering(o.verdict.failure.value).events
    else RenderedEvents(primary, o.verdict)
  }

  // What the rescue needs of the primary: one attempt's events or a rendered error, and a
  // ready buffer after a failure that showed nothing.
  lemma FirstShows(primary: Plan, unbuilt: Option<Failure>, rescue: Rescue, s: Sink)
    requires Ready(s)
    ensures var o := First(primary, unbuilt, rescue, s);
            && o.sink.trace == s.trace + LastShown(primary, o.verdict.log, s.canFlush)
                 + RenderedEvents(primary, o.verdict)
            && o.sink.canFlush == s.canFlush
            && (!o.sink.committed ==> LastShown(primary, o.verdict.log, s.canFlush) == [])
            && (o.verdict.rendered ==> !o.sink.committed && !rescue.Viable?)
            && (o.verdict.failure.Some? && !o.sink.committed ==> Ready(o.sink))
  {
    if unbuilt.None? {
      var first := primary.(hasRenderer := true, defersRendering := rescue.Viable?);
      DispatchShows(primary, first, s);
      LeavesReady(first, s);
    }
  }

  /** Across both dispatches, the first of which may not have been built at all, the client
      still sees the events of one attempt and at most one rendered error, never both. */
  lemma ChainShowsOneAttempt(primary: Plan, unbuilt: Option<Failure>, rescue: Rescue, schemaRejected: bool, s: Sink)
    requires Ready(s)
    ensures ServedSink(primary, unbuilt, rescue, schemaRejected, s).trace
         == s.trace + ChainShown(primary, unbuilt, rescue, schemaRejected, s)
            + ChainRendered(primary, unbuilt, rescue, schemaRejected, s)
    ensures ChainShown(primary, unbuilt, rescue, schemaRejected, s) == []
         || ChainRendered(primary, unbuilt, rescue, schemaRejected, s) == []
  {
    hide Dispatch, First, Ready;
    FirstShows(primary, unbuilt, rescue, s);
    var o := First(primary, unbuilt, rescue, s);
    if Serve(primary, unbuilt, rescue, schemaRejected, s).1.Some? {
      DispatchShows(rescue.plan, rescue.plan.(hasRenderer := true, defersRendering := false), o.sink);
      assert o.sink.trace == s.trace;
    }
  }

  // The failure the chain ends with.
  function ChainFailure(primary: Plan, unbuilt: Option<Failure>, rescue: Rescue, schemaRejected: bool, s: Sink)
    : Option<Failure>
  {
    var (o, sibling, _) := Serve(primary, unbuilt, rescue, schemaRejected, s);
    if sibling.Some? then sibling.value.verdict.failure else o.verdict.failure
  }

  // The primary failed with nothing shown, with a fault another model may not have, and the
  // sibling's request could be built and has somewhere to go.
  predicate Rescuable(primary: Plan, unbuilt: Option<Failure>, rescue: Rescue, schemaRejected: bool, s: Sink) {
    var o := First(primary, unbuilt, rescue, s);
    && rescue.Viable? && rescue.built && rescue.plan.bindings != []
    && o.verdict.failure.Some? && !o.sink.committed && (CanFailOver(o.verdict.failure.value) || schemaRejected)
  }

  /** The chain succeeds exactly when the primary dispatch does, or it can be rescued and the
      sibling's dispatch from the state it left succeeds. */
  lemma ChainSucceedsExactlyWhen(primary: Plan, unbuilt: Option<Failure>, rescue: Rescue, schemaRejected: bool, s: Sink)
    ensures var o := First(primary, unbuilt, rescue, s);
            ChainFailure(primary, unbuilt, rescue, schemaRejected, s).None? <==>
            || o.verdict.failure.None?
            || (Rescuable(primary, unbuilt, rescue, schemaRejected, s)
                && Dispatch(rescue.plan.(hasRenderer := true, defersRendering := false), o.sink).verdict.failure.None?)
    ensures unbuilt.Some? ==>
              var v := First(primary, unbuilt, rescue, s).verdict; v.winner == -1 && v.failure == unbuilt && v.log == []
  { }

  /** A deferred error is never dropped: with a viable sibling, a chain that fails with
      nothing shown ends with one error rendered: the primary's own when it could not be
      rescued, else the sibling's, but for a last binding not configured and a backoff cut
      short. */
  lemma DeferredErrorReachesClient(primary: Plan, unbuilt: Option<Failure>, rescue: Rescue, schemaRejected: bool,
                                   s: Sink)
    requires Ready(s) && rescue.Viable?
    requires ChainFailure(primary, unbuilt, rescue, schemaRejected, s).Some?
    requires !ServedSink(primary, unbuilt, rescue, schemaRejected, s).committed
    ensures var f := ChainFailure(primary, unbuilt, rescue, schemaRejected, s).value;
            var trace := ServedSink(primary, unbuilt, rescue, schemaRejected, s).trace;
            if Rescuable(primary, unbuilt, rescue, schemaRejected, s) then
              var v := Dispatch(rescue.plan.(hasRenderer := true, defersRendering := false),
                                First(primary, unbuilt, rescue, s).sink).verdict;
              && 0 <= v.winner < |rescue.plan.bindings|
              && trace == s.trace + if rescue.plan.configured(v.winner) && !CutShort(rescue.plan, v.log)
                                    then rescue.plan.rendering(f).events else []
            else trace == s.trace + primary.rendering(f).events
  {
    hide Dispatch, First, Ready, CutShort, Render, Serve, ServedSink, ChainFailure, RenderedEvents, LastShown;
    FirstShows(primary, unbuilt, rescue, s);
    ServedBy(primary, unbuilt, rescue, schemaRejected, s);
    var o := First(primary, unbuilt, rescue, s);
    if Rescuable(primary, unbuilt, rescue, schemaRejected, s) {
      RescuableIsQuiet(primary, unbuilt, rescue, schemaRejected, s);
      hide Rescuable;
      FailureShows(rescue.plan, o.sink);
    } else {
      hide Rescuable;
      DeferredShows(primary, unbuilt, rescue, schemaRejected, s);
    }
  }

  lemma RescuableIsQuiet(primary: Plan, unbuilt: Option<Failure>, rescue: Rescue, schemaRejected: bool, s: Sink)
    requires Ready(s) && Rescuable(primary, unbuilt, rescue, schemaRejected, s)
    ensures Ready(First(primary, unbuilt, rescue, s).sink) && First(primary, unbuilt, rescue, s).sink.trace == s.trace
  {
    FirstShows(primary, unbuilt, rescue, s);
  }

  // Whose dispatch the chain ends with.
  lemma ServedBy(primary: Plan, unbuilt: Option<Failure>, rescue: Rescue, schemaRejected: bool, s: Sink)
    ensures var o := First(primary, unbuilt, rescue, s);
            if Rescuable(primary, unbuilt, rescue, schemaRejected, s) then
              var d := Dispatch(rescue.plan.(hasRenderer := true, defersRendering := false), o.sink);
              && ServedSink(primary, unbuilt, rescue, schemaRejected, s) == d.sink
              && ChainFailure(primary, unbuilt, rescue, schemaRejected, s) == d.verdict.failure
            else
              && ChainFailure(primary, unbuilt, rescue, schemaRejected, s) == o.verdict.failure
              && ServedSink(primary, unbuilt, rescue, schemaRejected, s).committed == o.sink.committed
  { }

  // A dispatch that renders for itself, when it fails with nothing shown.
  lemma FailureShows(p: Plan, s: Sink)
    requires Ready(s) && p.bindings != []
    ensures var o := Dispatch(p.(hasRenderer := true, defersRendering := false), s); var v := o.verdict;
            && 0 <= v.winner < |p.bindings|
            && (v.failure.Some? && !o.sink.committed ==>
                  o.sink.trace == s.trace + if p.configured(v.winner) && !CutShort(p, v.log)
                                            then p.rendering(v.failure.value).events else [])
  {
    hide Dispatch, CutShort, LastShown;
    var q := p.(hasRenderer := true, defersRendering := false);
    DispatchShows(p, q, s);
    RenderedExactlyWhen(q, s);
    SameCutShort(p, q, Dispatch(q, s).verdict.log);
  }

  lemma SameCutShort(p: Plan, q: Plan, log: seq<Run>)
    requires q == p.(hasRenderer := q.hasRenderer, defersRendering := q.defersRendering)
    ensures CutShort(q, log) == CutShort(p, log)
  {
    hide Commits, IsRetryable;
    assert log != [] ==> AttemptOf(q, log[|log| - 1]) == AttemptOf(p, log[|log| - 1]);
  }

  lemma DeferredShows(primary: Plan, unbuilt: Option<Failure>, rescue: Rescue, schemaRejected: bool, s: Sink)
    requires Ready(s) && rescue.Viable? && !Rescuable(primary, unbuilt, rescue, schemaRejected, s)
    ensures var o := First(primary, unbuilt, rescue, s);
            o.verdict.failure.Some? && !o.sink.committed ==>
              ServedSink(primary, unbuilt, rescue, schemaRejected, s).trace
                == s.trace + primary.rendering(o.verdict.failure.value).events
  {
    FirstShows(primary, unbuilt, rescue, s);
    hide Dispatch, First, Ready, Commits, IsRetryable;
  }

  // The facts of a dispatch, told of the same plan under other renderer settings.
  lemma DispatchShows(p: Plan, q: Plan, s: Sink)
    requires q == p.(hasRenderer := q.hasRenderer, defersRendering := q.defersRendering)
    requires Ready(s)
    ensures var o := Dispatch(q, s);
            && o.sink.trace == s.trace + LastShown(p, o.verdict.log, s.canFlush) + RenderedEvents(p, o.verdict)
            && o.sink.canFlush == s.canFlush
            && (!o.sink.committed ==> LastShown(p, o.verdict.log, s.canFlush) == [])
            && (o.verdict.rendered ==> !o.sink.committed && o.verdict.failure.Some? && Renders(q))
  {
    hide Walk, Commits, ClientEvents;
    ClientSeesOneAttempt(q, s);
    if q.bindings != [] { WalkOutcome(q, 0, s); }
    var log := Dispatch(q, s).verdict.log;
    if log != [] {
      var r := log[|log| - 1];
      assert AttemptOf(p, r) == AttemptOf(q, r);
      if !Commits(AttemptOf(q, r).script) { SilentUnlessCommits(AttemptOf(q, r).script, s.canFlush); }
    }
  }

  lemma LeavesReady(p: Plan, s: Sink)
    requires Ready(s)
    ensures var o := Dispatch(p, s); o.verdict.failure.Some? && !o.sink.committed ==> Ready(o.sink)
  {
    if p.bindings != [] { OnlyTheLastAttemptDressesHeaders(p, s); }
  }

  // ------------------------------------------------------- the loops in place ----

  function LoggedRun(log: seq<Run>, r: BindingRun): BindingRun {
    r.(log := log + r.log)
  }

  lemma SetIsMerge(m: Headers, b: Headers, k: string, v: seq<string>)
    ensures (m + b)[k := v] == m + b[k := v]
  {
  }

  lemma SetIsMergeFirst(m: Headers, k: string, v: seq<string>)
    ensures m[k := v] == m + map[k := v]
  {
  }

  method SetHeader(w: ResponseWriter, key: string, value: string, ghost was: Headers, ghost put: Headers)
    requires w.headers == was + put
    modifies w
    ensures w.headers == was + put[key := [value]] && w.trace == old(w.trace)
  {
    w.headers := w.headers[key := [value]];
    SetIsMerge(was, put, key, [value]);
  }

  method SetRouterHeaders(p: Plan, i: nat, w: ResponseWriter)
    requires i < |p.bindings|
    modifies w
    ensures w.headers == old(w.headers) + RouterHeaders(p, i) && w.trace == old(w.trace)
  {
    ghost var was := w.headers;
    ghost var put: Headers := map["x-router-provider" := [p.bindings[i]]];
    w.headers := w.headers["x-router-provider" := [p.bindings[i]]];
    SetIsMergeFirst(was, "x-router-provider", [p.bindings[i]]);
    SetHeader(w, "x-router-model", p.model, was, put);
    put := put["x-router-model" := [p.model]];
    SetHeader(w, "x-router-context-window", p.windowText(p.bindings[i]), was, put);
    if i > 0 {
      put := put["x-router-context-window" := [p.windowText(p.bindings[i])]];
      SetHeader(w, "x-router-fallback-from", p.bindings[0], was, put);
      put := put["x-router-fallback-from" := [p.bindings[0]]];
      SetHeader(w, "x-router-fallback-attempt", p.indexText(i), was, put);
    }
  }

  method FlushError(p: Plan, w: ResponseWriter, f: Failure) returns (ghost rendered: bool)
    modifies w
    ensures rendered == Renders(p)
    ensures w.headers == (if Renders(p) then p.rendering(f).dress(old(w.headers)) else old(w.headers))
    ensures w.trace == old(w.trace) + (if Renders(p) then p.rendering(f).events else [])
  {
    rendered := false;
    if p.hasRenderer && !p.defersRendering {
      w.headers := p.rendering(f).dress(w.headers);
      w.trace := w.trace + p.rendering(f).events;
      rendered := true;
    }
  }

  // One pass of the same-binding loop: None asks for another pass.
  function AfterPass(p: Plan, i: nat, retry: nat, s: Sink, spent: nat): (Option<Ending>, Sink)
    requires i < |p.bindings| && retry <= MAX_SAME_BINDING_RETRIES
  {
    var a, ended := p.attempts(i, retry), Attempted(p, i, retry, s);
    if a.failure.None? then (Some(Served), ended)
    else if ended.committed then (Some(Torn(a.failure.value)), ended)
    else if !IsRetryable(a.failure.value) || retry >= MAX_SAME_BINDING_RETRIES || |p.bindings| > 1
            || spent >= RETRY_BUDGET_MS then
      (Some(GaveUp(a.failure.value)), ended)
    else if p.sleepInterrupted(retry) then (Some(Interrupted(a.failure.value)), Discard(ended))
    else (None, Discard(ended))
  }

  lemma PassThenRest(p: Plan, i: nat, retry: nat, s: Sink, elapsed: nat, spent: nat)
    requires i < |p.bindings| && retry <= MAX_SAME_BINDING_RETRIES
    requires spent == elapsed + p.attempts(i, retry).millis
    ensures var (ending, t) := AfterPass(p, i, retry, s, spent);
            && (ending.Some? ==>
                  RunBinding(p, i, retry, s, elapsed) == BindingRun(ending.value, t, [Run(i, retry, elapsed)]))
            && (ending.None? ==>
                  && retry < MAX_SAME_BINDING_RETRIES
                  && RunBinding(p, i, retry, s, elapsed)
                     == LoggedRun([Run(i, retry, elapsed)], RunBinding(p, i, retry + 1, t, spent + Backoff(retry))))
  {
  }

  lemma LoggedTwice(a: seq<Run>, b: seq<Run>, r: BindingRun)
    ensures LoggedRun(a, LoggedRun(b, r)) == LoggedRun(a + b, r)
  {
    assert a + (b + r.log) == (a + b) + r.log;
  }

  method Pass(p: Plan, i: nat, retry: nat, spent: nat, w: ResponseWriter, buf: Buffer) returns (ending: Option<Ending>)
    requires i < |p.bindings| && retry <= MAX_SAME_BINDING_RETRIES && buf.inner == w
    modifies w, buf
    ensures (ending, buf.View()) == AfterPass(p, i, retry, old(buf.View()), spent)
  {
    if !buf.committed {
      SetRouterHeaders(p, i, w);
    }
    var attempt := p.attempts(i, retry);
    buf.Run(attempt.script);
    if attempt.failure.None? {
      return Some(Served);
    }
    if buf.committed {
      return Some(Torn(attempt.failure.value));
    }
    if !IsRetryable(attempt.failure.value) || retry >= MAX_SAME_BINDING_RETRIES || |p.bindings| > 1
       || spent >= RETRY_BUDGET_MS {
      return Some(GaveUp(attempt.failure.value));
    }
    buf.DiscardBuffered();
    if p.sleepInterrupted(retry) {
      return Some(Interrupted(attempt.failure.value));
    }
    return None;
  }

  // The same-binding loop.
  method TryBinding(p: Plan, i: nat, w: ResponseWriter, buf: Buffer) returns (ending: Ending, ghost log: seq<Run>)
    requires i < |p.bindings| && buf.inner == w
    modifies w, buf
    ensures BindingRun(ending, buf.View(), log) == RunBinding(p, i, 0, old(buf.View()), 0)
  {
    hide RunBinding, Execute, RouterHeaders, Backoff, IsRetryable;
    var retry: nat, elapsed: nat := 0, 0;
    log := [];
    ghost var s, whole := buf.View(), RunBinding(p, i, 0, buf.View(), 0);
    while true
      invariant retry <= MAX_SAME_BINDING_RETRIES
      invariant s == buf.View() && LoggedRun(log, RunBinding(p, i, retry, s, elapsed)) == whole
      decreases MAX_SAME_BINDING_RETRIES - retry
    {
      var spent := elapsed + p.attempts(i, retry).millis;
      PassThenRest(p, i, retry, s, elapsed, spent);
      var stop := Pass(p, i, retry, spent, w, buf);
      s := buf.View();
      if stop.Some? {
        log := log + [Run(i, retry, elapsed)];
        return stop.value, log;
      }
      LoggedTwice(log, [Run(i, retry, elapsed)], RunBinding(p, i, retry + 1, s, spent + Backoff(retry)));
      log := log + [Run(i, retry, elapsed)];
      elapsed := spent + Backoff(retry);
      retry := retry + 1;
    }
  }

  lemma LoggedOutcomeTwice(a: seq<Run>, b: seq<Run>, o: Outcome)
    ensures Logged(a, Logged(b, o)) == Logged(a + b, o)
  {
    assert a + (b + o.verdict.log) == (a + b) + o.verdict.log;
  }

  lemma WalkUnconfigured(p: Plan, i: nat, s: Sink)
    requires i < |p.bindings| && !p.configured(i)
    ensures var t := if i > 0 then Discard(s) else s;
            Walk(p, i, s) == if i < |p.bindings| - 1 then Walk(p, i + 1, t)
                             else Outcome(Verdict(i, Some(p.notConfigured(i)), [], false), t)
  {
  }

  // One binding of the walk, from the top of the outer loop's body.
  method Visit(p: Plan, i: nat, w: ResponseWriter, buf: Buffer)
    returns (goOn: bool, failure: Option<Failure>, ghost log: seq<Run>, ghost rendered: bool)
    requires i < |p.bindings| && buf.inner == w
    modifies w, buf
    ensures goOn ==> i < |p.bindings| - 1 && Walk(p, i, old(buf.View())) == Logged(log, Walk(p, i + 1, buf.View()))
    ensures !goOn ==> Walk(p, i, old(buf.View())) == Outcome(Verdict(i, failure, log, rendered), buf.View())
  {
    log, rendered := [], false;
    ghost var before := buf.View();
    if i > 0 {
      buf.DiscardBuffered();
    }
    ghost var start := buf.View();
    if !p.configured(i) {
      WalkUnconfigured(p, i, before);
      return i < |p.bindings| - 1, Some(p.notConfigured(i)), log, rendered;
    }
    var ending: Ending;
    ending, log := TryBinding(p, i, w, buf);
    ghost var r := BindingRun(ending, buf.View(), log);
    ghost var rest := if i < |p.bindings| - 1 then Walk(p, i + 1, r.sink)
      else Outcome(Verdict(i, None, [], false), r.sink);
    WalkAt(p, i, before, start, r, rest);
    if !ending.GaveUp? {
      return false, EndingFailure(ending), log, rendered;
    }
    if !CanFailOver(ending.failure) || i == |p.bindings| - 1 {
      buf.DiscardBuffered();
      rendered := FlushError(p, w, ending.failure);
      return false, Some(ending.failure), log, rendered;
    }
    return true, None, log, rendered;
  }

  /** dispatchWithFallback: walks the bindings in order, writing through the buffer. */
  method DispatchWithFallback(p: Plan, w: ResponseWriter, buf: Buffer)
    returns (winner: int, failure: Option<Failure>, ghost log: seq<Run>, ghost rendered: bool)
    requires buf.inner == w
    modifies w, buf
    ensures Outcome(Verdict(winner, failure, log, rendered), buf.View()) == Dispatch(p, old(buf.View()))
  {
    log, rendered := [], false;
    if |p.bindings| == 0 {
      if p.userForced {
        rendered := FlushError(p, w, Unavailable(p));
        return -1, Some(Unavailable(p)), log, rendered;
      }
      return -1, Some(NoBinding()), log, rendered;
    }
    var i: nat := 0;
    ghost var s, whole := buf.View(), Walk(p, 0, buf.View());
    while true
      invariant i < |p.bindings|
      invariant s == buf.View() && Logged(log, Walk(p, i, s)) == whole
      decreases |p.bindings| - i
    {
      ghost var here: seq<Run>;
      var goOn: bool;
      goOn, failure, here, rendered := Visit(p, i, w, buf);
      s := buf.View();
      if !goOn {
        return i, failure, log + here, rendered;
      }
      LoggedOutcomeTwice(log, here, Walk(p, i + 1, s));
      log := log + here;
      i := i + 1;
    }
  }
}
