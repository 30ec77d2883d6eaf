/** What ends a session pin: internal/proxy/pin_eviction.go and provider_overload.go, with
    the one-shot continuation of command_continuation.go they invalidate.

    up(i) says whether the i-th store call of a handler succeeds. */
module PinEviction {
  import opened Wrappers
  import opened PinStore
  import Dispatch

  type Weather = nat -> bool

  // ----------------------------------------------------------------- expiring a row ----

  // The already expired row that routing discards.
  function Marker(installation: nat, reason: Reason, s: Strategy, now: int): Incoming {
    Incoming(installation, "", "", "", "", reason, s, "", 1, now - 1)
  }

  function RowExpired(rows: Rows, k: Key, m: Incoming, now: int, invalidate: bool, up: Weather): Rows
    requires k.role.Tiered?
  {
    if !up(0) then rows
    else
      var marked := Upserted(rows, k, m, now);
      if invalidate && up(1) then Consumed(marked, k.(role := WithSuffix(k.role, CommandNext)), m.strategy, now)
      else marked
  }

  // expireSessionPinRow; invalidate also takes away a pending one-shot continuation.
  method ExpireSessionPinRow(store: SessionPins, k: Key, m: Incoming, now: int, invalidate: bool, up: Weather)
    returns (err: bool)
    requires k.role.Tiered?
    modifies store
    ensures store.rows == RowExpired(old(store.rows), k, m, now, invalidate, up)
    ensures err <==> !up(0) || (invalidate && !up(1))
  {
    err := store.Upsert(k, m, now, up(0));
    if err {
      return true;
    }
    if !invalidate {
      return false;
    }
    var _, failed := store.Consume(k.(role := WithSuffix(k.role, CommandNext)), m.strategy, now, up(1));
    err := failed;
  }

  function Later(up: Weather, n: nat): Weather { (i: nat) => up(i + n) }

  function BothExpired(rows: Rows, k: Key, m: Incoming, now: int, up: Weather): Rows
    requires k.role.Tiered?
  {
    var first := RowExpired(rows, k, m, now, true, up);
    if !up(0) || !up(1) then first
    else RowExpired(first, k.(role := WithSuffix(k.role, HmmHistory)), m, now, false, Later(up, 2))
  }

  // expireSessionPinAndHMMHistory.
  method ExpireSessionPinAndHMMHistory(store: SessionPins, k: Key, m: Incoming, now: int, up: Weather)
    returns (err: bool)
    requires k.role.Tiered?
    modifies store
    ensures store.rows == BothExpired(old(store.rows), k, m, now, up)
    ensures err <==> !up(0) || !up(1) || !up(2)
  {
    err := ExpireSessionPinRow(store, k, m, now, true, up);
    if err {
      return;
    }
    err := ExpireSessionPinRow(store, k.(role := WithSuffix(k.role, HmmHistory)), m, now, false, Later(up, 2));
  }

  // ------------------------------------------------------------------ after a turn ----

  // How a turn ended: the upstream status is zero when no upstream answered.
  datatype Outcome = Served | Failed(status: int)

  // One finished turn, as the handlers see it.
  datatype Turn = Turn(
    sticky: bool,
    outcome: Outcome,
    provider: string,
    reason: Reason,
    installation: nat,
    strategy: Strategy,
    now: int)

  const STRIKES := 2
  const OVERLOADED := 529

  const UPSTREAM_STRIKES := OtherReason("upstream_error_strike_threshold")
  const PROVIDER_OVERLOADED := OtherReason("provider_overloaded")
  const DEAD_ARM := OtherReason("dead_arm_rejected")
  const DEGENERATE := OtherReason("degenerate_response")

  // The turn ran against an addressable pin the user did not force.
  predicate Watched(t: Turn, k: Key) {
    t.sticky && t.installation != 0 && k.session != 0 && !t.reason.UserForced?
  }

  predicate Rejects(o: Outcome) {
    o.Failed? && o.status != 0 && !Dispatch.IsRetryableStatus(o.status)
  }

  predicate Overloads(o: Outcome) { o.Failed? && o.status == OVERLOADED }

  function AfterUpstream(rows: Rows, k: Key, t: Turn, up: Weather): Rows
    requires k.role.Tiered?
  {
    if !Watched(t, k) then rows
    else if t.outcome.Served? then (if up(0) then UpstreamReset(rows, k, t.strategy) else rows)
    else if !Rejects(t.outcome) || !up(0) then rows
    else
      var counted := UpstreamCounted(rows, k, t.strategy);
      if k in counted && StrategyMatches(counted[k], t.strategy) && counted[k].upstreamErrors >= STRIKES
      then RowExpired(counted, k, Marker(t.installation, UPSTREAM_STRIKES, t.strategy, t.now), t.now, true,
                      Later(up, 1))
      else counted
  }

  /** maybeEvictPinAfterUpstreamErr. */
  method MaybeEvictPinAfterUpstreamErr(store: SessionPins, k: Key, t: Turn, up: Weather)
    requires k.role.Tiered?
    modifies store
    ensures store.rows == AfterUpstream(old(store.rows), k, t, up)
  {
    if !t.sticky || t.installation == 0 || k.session == 0 || t.reason.UserForced? {
      return;
    }
    if t.outcome.Served? {
      var _ := store.ResetUpstreamErrors(k, t.strategy, up(0));
      return;
    }
    if t.outcome.status == 0 || Dispatch.IsRetryableStatus(t.outcome.status) {
      return;
    }
    var count, err := store.IncrementUpstreamErrors(k, t.strategy, up(0));
    if err || count < STRIKES {
      return;
    }
    var _ := ExpireSessionPinRow(store, k, Marker(t.installation, UPSTREAM_STRIKES, t.strategy, t.now), t.now, true,
                                 Later(up, 1));
  }

  function AfterDeadArm(rows: Rows, k: Key, t: Turn, rejected: bool, up: Weather): Rows
    requires k.role.Tiered?
  {
    if rejected && t.installation != 0 && k.session != 0 && !t.reason.UserForced?
    then RowExpired(rows, k, Marker(t.installation, DEAD_ARM, t.strategy, t.now), t.now, true, up)
    else rows
  }

  /** maybeExpireDeadArmPin: even when a rescue served the turn. */
  method MaybeExpireDeadArmPin(store: SessionPins, k: Key, t: Turn, rejected: bool, up: Weather)
    requires k.role.Tiered?
    modifies store
    ensures store.rows == AfterDeadArm(old(store.rows), k, t, rejected, up)
  {
    if !rejected || t.installation == 0 || k.session == 0 || t.reason.UserForced? {
      return;
    }
    var _ := ExpireSessionPinRow(store, k, Marker(t.installation, DEAD_ARM, t.strategy, t.now), t.now, true, up);
  }

  function AfterDegenerate(rows: Rows, k: Key, t: Turn, up: Weather): Rows
    requires k.role.Tiered?
  {
    if Watched(t, k) then RowExpired(rows, k, Marker(t.installation, DEGENERATE, t.strategy, t.now), t.now, true, up)
    else rows
  }

  /** evictPinAfterDegenerateResponse. */
  method EvictPinAfterDegenerateResponse(store: SessionPins, k: Key, t: Turn, up: Weather)
    requires k.role.Tiered?
    modifies store
    ensures store.rows == AfterDegenerate(old(store.rows), k, t, up)
  {
    if !t.sticky || t.installation == 0 || k.session == 0 || t.reason.UserForced? {
      return;
    }
    var _ := ExpireSessionPinRow(store, k, Marker(t.installation, DEGENERATE, t.strategy, t.now), t.now, true, up);
  }

  function AfterOverload(rows: Rows, k: Key, pinRole: Role, t: Turn, up: Weather): Rows
    requires k.role.Tiered? && pinRole.Tiered?
  {
    if !Watched(t, k) then rows
    else if t.outcome.Served? then (if up(0) then OverloadReset(rows, k, t.strategy) else rows)
    else if !Overloads(t.outcome) || !up(0) then rows
    else
      var counted := OverloadCounted(rows, k, t.strategy);
      if !(k in counted && StrategyMatches(counted[k], t.strategy) && counted[k].overloadErrors >= STRIKES) || !up(1)
        then counted
      else
        BothExpired(ProviderDisabled(counted, k, t.provider, t.strategy), k.(role := pinRole),
                    Marker(t.installation, PROVIDER_OVERLOADED, t.strategy, t.now), t.now, Later(up, 2))
  }

  /** maybeDisableProviderAfterOverload: strikes the provider out on the sticky row, and
      expires the pin and its history row. */
  method MaybeDisableProviderAfterOverload(store: SessionPins, k: Key, pinRole: Role, t: Turn, up: Weather)
    requires k.role.Tiered? && pinRole.Tiered?
    modifies store
    ensures store.rows == AfterOverload(old(store.rows), k, pinRole, t, up)
  {
    if !t.sticky || t.installation == 0 || k.session == 0 || t.reason.UserForced? {
      return;
    }
    if t.outcome.Served? {
      var _ := store.ResetOverloadErrors(k, t.strategy, up(0));
      return;
    }
    if t.outcome.status != OVERLOADED {
      return;
    }
    var count, err := store.IncrementOverloadErrors(k, t.strategy, up(0));
    if err || count < STRIKES {
      return;
    }
    err := store.DisableProvider(k, t.provider, t.strategy, up(1));
    if err {
      return;
    }
    var _ := ExpireSessionPinAndHMMHistory(store, k.(role := pinRole),
                                           Marker(t.installation, PROVIDER_OVERLOADED, t.strategy, t.now), t.now,
                                           Later(up, 2));
  }

  // The handlers in the order every turn runs them.  A store call of one handler may fail
  // whatever the others' do.
  function AfterTurn(rows: Rows, k: Key, pinRole: Role, t: Turn, deadArm: bool, up: nat -> Weather): Rows
    requires k.role.Tiered? && pinRole.Tiered?
  {
    AfterOverload(AfterDeadArm(AfterUpstream(rows, k, t, up(0)), k, t, deadArm, up(1)), k, pinRole, t, up(2))
  }

  method FinishTurn(store: SessionPins, k: Key, pinRole: Role, t: Turn, deadArm: bool, up: nat -> Weather)
    requires k.role.Tiered? && pinRole.Tiered?
    modifies store
    ensures store.rows == AfterTurn(old(store.rows), k, pinRole, t, deadArm, up)
  {
    MaybeEvictPinAfterUpstreamErr(store, k, t, up(0));
    MaybeExpireDeadArmPin(store, k, t, deadArm, up(1));
    MaybeDisableProviderAfterOverload(store, k, pinRole, t, up(2));
  }

  // ------------------------------------------------------------------- two strikes ----

  datatype Fault = Rejected | Overloaded

  // The strike an outcome counts as, if any.
  function Strike(o: Outcome): Option<Fault> {
    if Overloads(o) then Some(Overloaded) else if Rejects(o) then Some(Rejected) else None
  }

  /** What counts against a pin, by the upstream's status: 529 as an overload; any other status
      that is not worth a retry (408, 429 and 5xx are) as a rejection; nothing when no upstream
      answered, nor when the turn was served. */
  lemma StrikesByStatus(status: int)
    ensures Strike(Served).None?
    ensures Strike(Failed(status)) == Some(Overloaded) <==> status == 529
    ensures Strike(Failed(status)) == Some(Rejected) <==> status !in {0, 408, 429} && status / 100 != 5
  { }

  // What happens to a pin between evictions: turns run against it, the refresh that keeps
  // it (same model, same strategy), and the usage written back.
  datatype Happening = Ran(turn: Turn) | Refreshed(pin: Incoming, now: int) | Used(usage: Usage)

  predicate IsStrike(h: Happening, f: Fault) { h.Ran? && Strike(h.turn.outcome) == Some(f) }

  predicate IsServed(h: Happening) { h.Ran? && h.turn.outcome.Served? }

  // Errors of kind f since the last served turn.
  function Count(hs: seq<Happening>, f: Fault): nat {
    if hs == [] then 0
    else
      var h := hs[|hs| - 1];
      if IsServed(h) then 0 else Count(hs[..|hs| - 1], f) + if IsStrike(h, f) then 1 else 0
  }

  predicate NoneServed(hs: seq<Happening>, from: nat, to: nat)
    requires to <= |hs|
  {
    forall m | from <= m < to :: !IsServed(hs[m])
  }

  // The happening at j is the second error of one kind with no served turn between.
  predicate SecondStrike(hs: seq<Happening>, j: nat, f: Fault)
    requires j < |hs|
  {
    IsStrike(hs[j], f) && exists i :: 0 <= i < j && IsStrike(hs[i], f) && NoneServed(hs, i, j)
  }

  predicate StruckOut(hs: seq<Happening>) {
    exists j, f :: 0 <= j < |hs| && SecondStrike(hs, j, f)
  }

  lemma {:induction false} CountSeesStrikes(hs: seq<Happening>, f: Fault)
    ensures Count(hs, f) > 0 <==> exists i :: 0 <= i < |hs| && IsStrike(hs[i], f) && NoneServed(hs, i, |hs|)
  {
    if hs != [] {
      var n := |hs| - 1;
      var before := hs[..n];
      CountSeesStrikes(before, f);
      if Count(hs, f) > 0 {
        if IsStrike(hs[n], f) {
          assert NoneServed(hs, n, |hs|);
        } else {
          var i :| 0 <= i < n && IsStrike(before[i], f) && NoneServed(before, i, n);
          assert forall m | i <= m < n :: hs[m] == before[m];
          assert IsStrike(hs[i], f) && NoneServed(hs, i, |hs|);
        }
      }
      forall i | 0 <= i < |hs| && IsStrike(hs[i], f) && NoneServed(hs, i, |hs|) ensures Count(hs, f) > 0 {
        assert !IsServed(hs[n]);
        if i < n {
          assert IsStrike(before[i], f);
          assert NoneServed(before, i, n) by {
            forall m | i <= m < n ensures !IsServed(before[m]) { assert !IsServed(hs[m]); }
          }
        }
      }
    }
  }

  lemma SecondStrikeIsCounted(hs: seq<Happening>, h: Happening, f: Fault)
    ensures SecondStrike(hs + [h], |hs|, f) <==> IsStrike(h, f) && Count(hs, f) > 0
  {
    var all := hs + [h];
    CountSeesStrikes(hs, f);
    if SecondStrike(all, |hs|, f) {
      var i :| 0 <= i < |hs| && IsStrike(all[i], f) && NoneServed(all, i, |hs|);
      assert forall m | i <= m < |hs| :: all[m] == hs[m];
      assert IsStrike(hs[i], f) && NoneServed(hs, i, |hs|);
    }
    if IsStrike(h, f) && Count(hs, f) > 0 {
      var i :| 0 <= i < |hs| && IsStrike(hs[i], f) && NoneServed(hs, i, |hs|);
      assert forall m | i <= m < |hs| :: all[m] == hs[m];
      assert IsStrike(all[i], f) && NoneServed(all, i, |hs|);
      assert all[|hs|] == h;
    }
  }

  lemma StruckOutGrows(hs: seq<Happening>, h: Happening)
    ensures StruckOut(hs + [h]) <==> StruckOut(hs) || exists f :: IsStrike(h, f) && Count(hs, f) > 0
  {
    var all := hs + [h];
    forall j, f | 0 <= j < |hs| ensures SecondStrike(all, j, f) <==> SecondStrike(hs, j, f) {
      assert all[..|hs|] == hs;
      PrefixStrike(hs, h, j, f);
    }
    forall f ensures SecondStrike(all, |hs|, f) <==> IsStrike(h, f) && Count(hs, f) > 0 {
      SecondStrikeIsCounted(hs, h, f);
    }
  }

  lemma PrefixStrike(hs: seq<Happening>, h: Happening, j: nat, f: Fault)
    requires j < |hs|
    ensures SecondStrike(hs + [h], j, f) <==> SecondStrike(hs, j, f)
  {
    var all := hs + [h];
    assert forall m | 0 <= m < |hs| :: all[m] == hs[m];
    forall i | 0 <= i < j ensures NoneServed(all, i, j) <==> NoneServed(hs, i, j) { }
    if SecondStrike(hs, j, f) {
      var i :| 0 <= i < j && IsStrike(hs[i], f) && NoneServed(hs, i, j);
      assert IsStrike(all[i], f) && NoneServed(all, i, j);
    }
    if SecondStrike(all, j, f) {
      var i :| 0 <= i < j && IsStrike(all[i], f) && NoneServed(all, i, j);
      assert IsStrike(hs[i], f) && NoneServed(hs, i, j);
    }
  }

  function Sunny(): Weather { (i: nat) => true }

  // A happening on the row of a model under one strategy: turns are watched, and a refresh
  // keeps model and strategy.  A history row's model is empty.
  predicate Ordinary(h: Happening, k: Key, model: string, s: Strategy) {
    match h
    case Ran(t) => Watched(t, k) && t.strategy == s
    case Refreshed(p, _) => p.model == model && p.strategy == s
    case Used(u) => u.strategy == s
  }

  // A turn's strikes are kept on the pin's own row, or on its HMM history row.
  predicate KeepsStrikesOf(r: Role, pinRole: Role) {
    pinRole.Tiered? && (r == pinRole || r == WithSuffix(pinRole, HmmHistory))
  }

  function Happens(rows: Rows, k: Key, pinRole: Role, h: Happening): Rows
    requires k.role.Tiered? && pinRole.Tiered?
  {
    match h
    case Ran(t) => AfterTurn(rows, k, pinRole, t, false, _ => Sunny())
    case Refreshed(p, now) => Upserted(rows, k, p, now)
    case Used(u) => UsageWritten(rows, k, u)
  }

  function AllHappen(rows: Rows, k: Key, pinRole: Role, hs: seq<Happening>): Rows
    requires k.role.Tiered? && pinRole.Tiered?
  {
    if hs == [] then rows else Happens(AllHappen(rows, k, pinRole, hs[..|hs| - 1]), k, pinRole, hs[|hs| - 1])
  }

  // What an eviction would change of a row: its reason, and how long it lives.
  datatype Life = Life(reason: Reason, until: int)

  // The life the row was last given by something other than an eviction.
  function LifeAfter(row: Pin, hs: seq<Happening>): Life {
    if hs == [] then Life(row.reason, row.until)
    else
      var h := hs[|hs| - 1];
      if h.Refreshed? then Life(h.pin.reason, h.pin.until) else LifeAfter(row, hs[..|hs| - 1])
  }

  // The row still holds the model and the life it was given, with these strikes against it.
  predicate Stands(rows: Rows, k: Key, model: string, s: Strategy, life: Life, rejected: nat, overloaded: nat) {
    && k in rows && rows[k].model == model && rows[k].strategy == s
    && rows[k].reason == life.reason && rows[k].until == life.until
    && rows[k].upstreamErrors == rejected && rows[k].overloadErrors == overloaded
  }

  // The row is the expired marker of a strike eviction at time now.
  predicate Evicted(rows: Rows, k: Key, now: int) {
    && k in rows && rows[k].model == "" && rows[k].until == now - 1
    && rows[k].reason in {UPSTREAM_STRIKES, PROVIDER_OVERLOADED}
  }

  predicate NoStrikes(rows: Rows, k: Key) {
    k in rows && rows[k].upstreamErrors == 0 && rows[k].overloadErrors == 0
  }

  lemma ServedClearsStrikes(rows: Rows, k: Key, pinRole: Role, t: Turn, model: string, s: Strategy, life: Life, r: nat,
                            o: nat)
    requires k.role.Tiered? && pinRole.Tiered? && Stands(rows, k, model, s, life, r, o)
    requires Watched(t, k) && t.strategy == s && t.outcome.Served?
    ensures Stands(AfterTurn(rows, k, pinRole, t, false, _ => Sunny()), k, model, s, life, 0, 0)
  { }

  // Which counter a failed turn raises: at most one of them.
  lemma FailedCountsOnce(rows: Rows, k: Key, pinRole: Role, t: Turn, model: string, s: Strategy, life: Life, r: nat,
                         o: nat)
    requires k.role.Tiered? && pinRole.Tiered? && Stands(rows, k, model, s, life, r, o)
    requires Watched(t, k) && t.strategy == s && t.outcome.Failed?
    requires Rejects(t.outcome) ==> r == 0
    requires Overloads(t.outcome) ==> o == 0
    ensures var after := AfterTurn(rows, k, pinRole, t, false, _ => Sunny());
            Stands(after, k, model, s, life, if Strike(t.outcome) == Some(Rejected) then r + 1 else r,
                   if Strike(t.outcome) == Some(Overloaded) then o + 1 else o)
  { }

  lemma ContinuationIsAnotherRow(k: Key)
    requires k.role.Tiered?
    ensures k.(role := WithSuffix(k.role, CommandNext)) != k
    ensures k.(role := WithSuffix(k.role, HmmHistory)) != k
  {
    assert |WithSuffix(k.role, CommandNext).suffixes| == |k.role.suffixes| + 1;
  }

  // The row a second rejected turn leaves is the marker laid over the counted row.
  lemma SecondRejectionMarks(rows: Rows, k: Key, t: Turn)
    requires k.role.Tiered? && k in rows && StrategyMatches(rows[k], t.strategy) && rows[k].upstreamErrors >= 1
    requires Watched(t, k) && Rejects(t.outcome)
    ensures k in AfterUpstream(rows, k, t, Sunny())
    ensures AfterUpstream(rows, k, t, Sunny())[k]
         == Merged(rows[k].(upstreamErrors := rows[k].upstreamErrors + 1),
                   Marker(t.installation, UPSTREAM_STRIKES, t.strategy, t.now), t.now)
  {
    ContinuationIsAnotherRow(k);
  }

  // The row a second overloaded turn leaves is the marker laid over the struck-out row,
  // whether the strikes are kept on the pin's row or on its history row.
  lemma SecondOverloadMarks(rows: Rows, k: Key, pinRole: Role, t: Turn)
    requires k.role.Tiered? && KeepsStrikesOf(k.role, pinRole)
    requires k in rows && StrategyMatches(rows[k], t.strategy) && rows[k].overloadErrors >= 1
    requires Watched(t, k) && Overloads(t.outcome)
    ensures k in AfterOverload(rows, k, pinRole, t, Sunny())
    ensures AfterOverload(rows, k, pinRole, t, Sunny())[k]
         == Merged(rows[k].(overloadErrors := 0, disabled := rows[k].disabled + {t.provider}),
                   Marker(t.installation, PROVIDER_OVERLOADED, t.strategy, t.now), t.now)
  {
    var base := k.(role := pinRole);
    ContinuationIsAnotherRow(base);
    assert k == base || k == base.(role := WithSuffix(pinRole, HmmHistory));
    assert WithSuffix(pinRole, HmmHistory).suffixes[|pinRole.suffixes|] == HmmHistory;
    assert WithSuffix(pinRole, CommandNext).suffixes[|pinRole.suffixes|] == CommandNext;
    var m := Marker(t.installation, PROVIDER_OVERLOADED, t.strategy, t.now);
    var struck := ProviderDisabled(OverloadCounted(rows, k, t.strategy), k, t.provider, t.strategy);
    assert struck[k] == rows[k].(overloadErrors := 0, disabled := rows[k].disabled + {t.provider});
    var later := Later(Sunny(), 2);
    var first := RowExpired(struck, base, m, t.now, true, later);
    assert k in first && first[k] == if k == base then Merged(struck[k], m, t.now) else struck[k];
  }

  lemma SecondRejectionEvicts(rows: Rows, k: Key, pinRole: Role, t: Turn, model: string, s: Strategy, life: Life,
                              o: nat)
    requires k.role.Tiered? && pinRole.Tiered? && Stands(rows, k, model, s, life, 1, o)
    requires Watched(t, k) && t.strategy == s && Rejects(t.outcome)
    ensures var after := AfterTurn(rows, k, pinRole, t, false, _ => Sunny());
            Evicted(after, k, t.now) && (model != "" ==> NoStrikes(after, k))
  {
    SecondRejectionMarks(rows, k, t);
  }

  lemma SecondOverloadEvicts(rows: Rows, k: Key, pinRole: Role, t: Turn, model: string, s: Strategy, life: Life, r: nat)
    requires k.role.Tiered? && KeepsStrikesOf(k.role, pinRole) && Stands(rows, k, model, s, life, r, 1)
    requires Watched(t, k) && t.strategy == s && Overloads(t.outcome)
    ensures var after := AfterTurn(rows, k, pinRole, t, false, _ => Sunny());
            && Evicted(after, k, t.now) && t.provider in after[k].disabled
            && (model != "" ==> NoStrikes(after, k))
  {
    SecondOverloadMarks(rows, k, pinRole, t);
  }

  lemma RefreshKeepsStrikes(rows: Rows, k: Key, p: Incoming, now: int, u: Usage, model: string, s: Strategy, life: Life,
                            r: nat, o: nat)
    requires Stands(rows, k, model, s, life, r, o)
    ensures p.model == model && p.strategy == s
            ==> Stands(Upserted(rows, k, p, now), k, model, s, Life(p.reason, p.until), r, o)
    ensures Stands(UsageWritten(rows, k, u), k, model, s, life, r, o)
  { }

  predicate AllOrdinary(hs: seq<Happening>, k: Key, model: string, s: Strategy) {
    forall h | h in hs :: Ordinary(h, k, model, s)
  }

  lemma HappensStep(rows: Rows, k: Key, pinRole: Role, hs: seq<Happening>, h: Happening, model: string, s: Strategy,
                    life: Life)
    requires k.role.Tiered? && KeepsStrikesOf(k.role, pinRole) && Ordinary(h, k, model, s)
    requires Count(hs, Rejected) <= 1 && Count(hs, Overloaded) <= 1
    requires Stands(rows, k, model, s, life, Count(hs, Rejected), Count(hs, Overloaded))
    ensures var after := Happens(rows, k, pinRole, h);
            if exists f :: IsStrike(h, f) && Count(hs, f) > 0
            then Evicted(after, k, h.turn.now) && (model != "" ==> NoStrikes(after, k))
            else
              && Count(hs + [h], Rejected) <= 1 && Count(hs + [h], Overloaded) <= 1
              && Stands(after, k, model, s, if h.Refreshed? then Life(h.pin.reason, h.pin.until) else life,
                        Count(hs + [h], Rejected), Count(hs + [h], Overloaded))
  {
    var r, o := Count(hs, Rejected), Count(hs, Overloaded);
    assert (hs + [h])[..|hs|] == hs;
    match h
    case Refreshed(p, now) =>
      RefreshKeepsStrikes(rows, k, p, now, Usage(s, 0, "", "", "", false), model, s, life, r, o);
    case Used(u) => RefreshKeepsStrikes(rows, k, Marker(0, DEAD_ARM, s, 0), 0, u, model, s, life, r, o);
    case Ran(t) =>
      if t.outcome.Served? {
        ServedClearsStrikes(rows, k, pinRole, t, model, s, life, r, o);
      } else if Rejects(t.outcome) && r == 1 {
        SecondRejectionEvicts(rows, k, pinRole, t, model, s, life, o);
        assert IsStrike(h, Rejected);
      } else if Overloads(t.outcome) && o == 1 {
        SecondOverloadEvicts(rows, k, pinRole, t, model, s, life, r);
        assert IsStrike(h, Overloaded);
      } else {
        FailedCountsOnce(rows, k, pinRole, t, model, s, life, r, o);
      }
  }

  /** Over any run of watched turns, refreshes and usage writes on a row that starts without
      strikes, be it a pin's own or its history row, the row keeps its model and the life it
      was last given exactly while no two errors of one kind have come without a served turn
      between; and at the first such second error it is evicted, its counters back at zero
      when it held a model. */
  lemma {:induction false} EvictedExactlyAtTheSecondStrike(rows: Rows, k: Key, pinRole: Role, hs: seq<Happening>,
                                                           model: string, s: Strategy)
    requires k.role.Tiered? && KeepsStrikesOf(k.role, pinRole)
    requires k in rows && rows[k].model == model && rows[k].strategy == s && NoStrikes(rows, k)
             && AllOrdinary(hs, k, model, s)
    requires hs != [] ==> !StruckOut(hs[..|hs| - 1])
    ensures !StruckOut(hs) ==>
              && Count(hs, Rejected) <= 1 && Count(hs, Overloaded) <= 1
              && Stands(AllHappen(rows, k, pinRole, hs), k, model, s, LifeAfter(rows[k], hs), Count(hs, Rejected),
                        Count(hs, Overloaded))
    ensures StruckOut(hs) ==>
              && hs[|hs| - 1].Ran? && Evicted(AllHappen(rows, k, pinRole, hs), k, hs[|hs| - 1].turn.now)
              && (model != "" ==> NoStrikes(AllHappen(rows, k, pinRole, hs), k))
  {
    if hs != [] {
      var before, h := hs[..|hs| - 1], hs[|hs| - 1];
      assert hs == before + [h];
      if before != [] {
        StruckOutGrows(before[..|before| - 1], before[|before| - 1]);
        assert before == before[..|before| - 1] + [before[|before| - 1]];
      }
      EvictedExactlyAtTheSecondStrike(rows, k, pinRole, before, model, s);
      StruckOutGrows(before, h);
      assert h in hs;
      HappensStep(AllHappen(rows, k, pinRole, before), k, pinRole, before, h, model, s, LifeAfter(rows[k], before));
    }
  }

  function Rejections(rows: Rows, k: Key): nat { if k in rows then rows[k].upstreamErrors else 0 }

  function Overloadings(rows: Rows, k: Key): nat { if k in rows then rows[k].overloadErrors else 0 }

  predicate NoneHigher(rows: Rows, after: Rows, j: Key) {
    Rejections(after, j) <= Rejections(rows, j) && Overloadings(after, j) <= Overloadings(rows, j)
  }

  lemma ExpiryRaisesNone(rows: Rows, k: Key, m: Incoming, now: int, invalidate: bool, up: Weather, j: Key)
    requires k.role.Tiered?
    ensures NoneHigher(rows, RowExpired(rows, k, m, now, invalidate, up), j)
  {
    assert NoneHigher(rows, Upserted(rows, k, m, now), j);
  }

  lemma UpstreamRaises(rows: Rows, k: Key, t: Turn, up: Weather, j: Key)
    requires k.role.Tiered?
    ensures var after := AfterUpstream(rows, k, t, up);
            && Overloadings(after, j) <= Overloadings(rows, j)
            && Rejections(after, j) <= Rejections(rows, j)
               + (if j == k && Watched(t, k) && Rejects(t.outcome) then 1 else 0)
  {
    ExpiryRaisesNone(UpstreamCounted(rows, k, t.strategy), k,
                     Marker(t.installation, UPSTREAM_STRIKES, t.strategy, t.now), t.now, true, Later(up, 1), j);
  }

  lemma OverloadRaises(rows: Rows, k: Key, pinRole: Role, t: Turn, up: Weather, j: Key)
    requires k.role.Tiered? && pinRole.Tiered?
    ensures var after := AfterOverload(rows, k, pinRole, t, up);
            && Rejections(after, j) <= Rejections(rows, j)
            && Overloadings(after, j) <= Overloadings(rows, j)
               + (if j == k && Watched(t, k) && Overloads(t.outcome) then 1 else 0)
  {
    var struck := ProviderDisabled(OverloadCounted(rows, k, t.strategy), k, t.provider, t.strategy);
    var base, m := k.(role := pinRole), Marker(t.installation, PROVIDER_OVERLOADED, t.strategy, t.now);
    var later := Later(up, 2);
    ExpiryRaisesNone(struck, base, m, t.now, true, later, j);
    ExpiryRaisesNone(RowExpired(struck, base, m, t.now, true, later), base.(role := WithSuffix(pinRole, HmmHistory)), m,
                     t.now, false, Later(later, 2), j);
    hide RowExpired;
    assert NoneHigher(struck, BothExpired(struck, base, m, t.now, later), j);
  }

  /** One turn, whatever the rows, the dead-arm verdict and the store's weather, raises no
      counter of any row but one: by one, on the turn's own row, its rejections when the
      upstream refused for good and its overloads when it answered 529.  No turn does both. */
  lemma OneCounterAtMost(rows: Rows, k: Key, pinRole: Role, t: Turn, deadArm: bool, up: nat -> Weather, i: Key, j: Key)
    requires k.role.Tiered? && pinRole.Tiered?
    ensures var after := AfterTurn(rows, k, pinRole, t, deadArm, up);
            && (Rejections(after, i) > Rejections(rows, i) ==>
                  i == k && Watched(t, k) && Rejects(t.outcome) && Rejections(after, i) == Rejections(rows, i) + 1)
            && (Overloadings(after, j) > Overloadings(rows, j) ==>
                  j == k && Watched(t, k) && Overloads(t.outcome)
                    && Overloadings(after, j) == Overloadings(rows, j) + 1)
            && !(Rejections(after, i) > Rejections(rows, i) && Overloadings(after, j) > Overloadings(rows, j))
  {
    hide AfterUpstream, AfterOverload, RowExpired;
    var one := AfterUpstream(rows, k, t, up(0));
    var two := AfterDeadArm(one, k, t, deadArm, up(1));
    forall q | q in {i, j}
      ensures Rejections(AfterTurn(rows, k, pinRole, t, deadArm, up), q) <= Rejections(rows, q)
                + (if q == k && Watched(t, k) && Rejects(t.outcome) then 1 else 0)
      ensures Overloadings(AfterTurn(rows, k, pinRole, t, deadArm, up), q) <= Overloadings(rows, q)
                + (if q == k && Watched(t, k) && Overloads(t.outcome) then 1 else 0)
    {
      UpstreamRaises(rows, k, t, up(0), q);
      ExpiryRaisesNone(one, k, Marker(t.installation, DEAD_ARM, t.strategy, t.now), t.now, true, up(1), q);
      OverloadRaises(two, k, pinRole, t, up(2), q);
    }
  }

  /** Whatever the store's weather, a turn that failed retryably (but not as overloaded) or
      without an upstream answer, or that was forced or not sticky, leaves the whole table
      alone. */
  lemma OnlyStrikesCount(rows: Rows, k: Key, pinRole: Role, t: Turn, up: nat -> Weather)
    requires k.role.Tiered? && pinRole.Tiered?
    requires !Watched(t, k) || (t.outcome.Failed? && Strike(t.outcome).None?)
    ensures AfterTurn(rows, k, pinRole, t, false, up) == rows
  { }

  // The provider is struck out on the row, under this strategy.
  predicate StruckOutOn(rows: Rows, k: Key, s: Strategy, provider: string) {
    k in rows && rows[k].strategy == s && provider in rows[k].disabled
  }

  lemma ExpiryKeepsStrikeOut(rows: Rows, j: Key, m: Incoming, now: int, invalidate: bool, up: Weather, k: Key,
                             s: Strategy, provider: string)
    requires j.role.Tiered? && StruckOutOn(rows, k, s, provider) && m.strategy == s
    requires k.role.Tiered? && (k.role.suffixes == [] || k.role.suffixes[|k.role.suffixes| - 1] != CommandNext)
    ensures StruckOutOn(RowExpired(rows, j, m, now, invalidate, up), k, s, provider)
  {
    var c := j.(role := WithSuffix(j.role, CommandNext));
    assert c.role.suffixes[|c.role.suffixes| - 1] == CommandNext && c != k;
  }

  lemma TurnKeepsStrikeOut(rows: Rows, k: Key, pinRole: Role, t: Turn, deadArm: bool, up: nat -> Weather, s: Strategy,
                           provider: string)
    requires k.role.Tiered? && pinRole.Tiered? && StruckOutOn(rows, k, s, provider) && t.strategy == s
    requires k.role.suffixes == [] || k.role.suffixes[|k.role.suffixes| - 1] != CommandNext
    ensures StruckOutOn(AfterTurn(rows, k, pinRole, t, deadArm, up), k, s, provider)
  {
    var one := AfterUpstream(rows, k, t, up(0));
    ExpiryKeepsStrikeOut(UpstreamCounted(rows, k, s), k, Marker(t.installation, UPSTREAM_STRIKES, s, t.now), t.now,
                         true, Later(up(0), 1), k, s, provider);
    assert StruckOutOn(one, k, s, provider);
    var two := AfterDeadArm(one, k, t, deadArm, up(1));
    ExpiryKeepsStrikeOut(one, k, Marker(t.installation, DEAD_ARM, s, t.now), t.now, true, up(1), k, s, provider);
    assert StruckOutOn(two, k, s, provider);
    OverloadKeepsStrikeOut(two, k, pinRole, t, up(2), s, provider);
  }

  lemma OverloadKeepsStrikeOut(rows: Rows, k: Key, pinRole: Role, t: Turn, up: Weather, s: Strategy, provider: string)
    requires k.role.Tiered? && pinRole.Tiered? && StruckOutOn(rows, k, s, provider) && t.strategy == s
    requires k.role.suffixes == [] || k.role.suffixes[|k.role.suffixes| - 1] != CommandNext
    ensures StruckOutOn(AfterOverload(rows, k, pinRole, t, up), k, s, provider)
  {
    var m := Marker(t.installation, PROVIDER_OVERLOADED, s, t.now);
    var struck := ProviderDisabled(OverloadCounted(rows, k, s), k, t.provider, s);
    assert StruckOutOn(OverloadCounted(rows, k, s), k, s, provider) && StruckOutOn(struck, k, s, provider);
    var base, later := k.(role := pinRole), Later(up, 2);
    var first := RowExpired(struck, base, m, t.now, true, later);
    ExpiryKeepsStrikeOut(struck, base, m, t.now, true, later, k, s, provider);
    ExpiryKeepsStrikeOut(first, base.(role := WithSuffix(pinRole, HmmHistory)), m, t.now, false, Later(later, 2), k, s,
                         provider);
  }

  // A turn, refresh or usage write under the strategy; a refresh may change the model.
  predicate Under(h: Happening, s: Strategy) {
    match h
    case Ran(t) => t.strategy == s
    case Refreshed(p, _) => p.strategy == s
    case Used(u) => true
  }

  /** A provider once struck out stays struck out while the strategy lasts: through further
      evictions, re-pins to other models and everything turns do. */
  lemma {:induction false} StrikeOutOutlivesThePin(rows: Rows, k: Key, pinRole: Role, hs: seq<Happening>, s: Strategy,
                                                   provider: string)
    requires k.role.Tiered? && pinRole.Tiered?
             && (k.role.suffixes == [] || k.role.suffixes[|k.role.suffixes| - 1] != CommandNext)
    requires StruckOutOn(rows, k, s, provider) && forall h | h in hs :: Under(h, s)
    ensures StruckOutOn(AllHappen(rows, k, pinRole, hs), k, s, provider)
  {
    if hs != [] {
      var before, h := hs[..|hs| - 1], hs[|hs| - 1];
      assert h in hs;
      StrikeOutOutlivesThePin(rows, k, pinRole, before, s, provider);
      if h.Ran? {
        TurnKeepsStrikeOut(AllHappen(rows, k, pinRole, before), k, pinRole, h.turn, false, _ => Sunny(), s, provider);
      }
    }
  }

  // ------------------------------------------------------------- what an expiry takes ----

  // The row is an expired marker without a model, of this reason.
  predicate ExpiredFor(rows: Rows, k: Key, reason: Reason, now: int) {
    k in rows && rows[k].until < now && rows[k].model == "" && rows[k].provider == "" && rows[k].reason == reason
  }

  // No one-shot continuation of the row is left to be taken under the strategy.
  ghost predicate NoContinuation(rows: Rows, k: Key, s: Strategy, now: int)
    requires k.role.Tiered?
  {
    forall at | at >= now :: !Consumable(rows, k.(role := WithSuffix(k.role, CommandNext)), s, at)
  }

  /** An expiry leaves its row dead, and with it goes the pending continuation; a failed marker
      write leaves both, and a failed consume the continuation.  No other row is touched. */
  lemma ExpiryTakesTheContinuation(rows: Rows, k: Key, installation: nat, reason: Reason, s: Strategy, now: int,
                                   up: Weather)
    requires k.role.Tiered?
    ensures var after := RowExpired(rows, k, Marker(installation, reason, s, now), now, true, up);
            var c := k.(role := WithSuffix(k.role, CommandNext));
            && (if up(0) then ExpiredFor(after, k, reason, now) && after[k].strategy == s else after == rows)
            && (up(0) && (k in rows ==> rows[k].strategy != s) ==> after[k].turnCount == 1 && after[k].firstAt == now)
            && (up(0) && up(1) ==> NoContinuation(after, k, s, now))
            && (!up(1) ==> (c in after <==> c in rows) && (c in rows ==> after[c] == rows[c]))
            && forall j | j != k && j != c :: (j in after <==> j in rows) && (j in rows ==> after[j] == rows[j])
  {
    ContinuationIsAnotherRow(k);
  }

  /** The store answering, a dead arm that rejected the turn expires the row, whether or not the
      turn was sticky, and a degenerate response the sticky row; a user's own force and a turn
      that cannot be addressed are left alone. */
  lemma DeadArmAndDegenerateExpire(rows: Rows, k: Key, t: Turn, rejected: bool)
    requires k.role.Tiered?
    ensures var dead, degenerate := AfterDeadArm(rows, k, t, rejected, Sunny()), AfterDegenerate(rows, k, t, Sunny());
            && (if rejected && t.installation != 0 && k.session != 0 && !t.reason.UserForced?
                then ExpiredFor(dead, k, DEAD_ARM, t.now) && NoContinuation(dead, k, t.strategy, t.now)
                else dead == rows)
            && (if t.sticky && t.installation != 0 && k.session != 0 && !t.reason.UserForced?
                then ExpiredFor(degenerate, k, DEGENERATE, t.now) && NoContinuation(degenerate, k, t.strategy, t.now)
                else degenerate == rows)
  {
    ExpiryTakesTheContinuation(rows, k, t.installation, DEAD_ARM, t.strategy, t.now, Sunny());
    ExpiryTakesTheContinuation(rows, k, t.installation, DEGENERATE, t.strategy, t.now, Sunny());
  }

  // The row is there and dead.
  predicate Dead(rows: Rows, k: Key, now: int) { k in rows && rows[k].until < now && rows[k].model == "" }

  lemma ExpiryKeepsDead(rows: Rows, j: Key, installation: nat, reason: Reason, s: Strategy, now: int, invalidate: bool,
                        up: Weather, k: Key)
    requires j.role.Tiered? && Dead(rows, k, now)
    ensures Dead(RowExpired(rows, j, Marker(installation, reason, s, now), now, invalidate, up), k, now)
  { }

  lemma OverloadKeepsDead(rows: Rows, k: Key, pinRole: Role, t: Turn, up: Weather)
    requires k.role.Tiered? && pinRole.Tiered? && Dead(rows, k, t.now)
    ensures Dead(AfterOverload(rows, k, pinRole, t, up), k, t.now)
  {
    var struck := ProviderDisabled(OverloadCounted(rows, k, t.strategy), k, t.provider, t.strategy);
    var base, m := k.(role := pinRole), Marker(t.installation, PROVIDER_OVERLOADED, t.strategy, t.now);
    assert Dead(struck, k, t.now) && Dead(OverloadCounted(rows, k, t.strategy), k, t.now);
    ExpiryKeepsDead(struck, base, t.installation, PROVIDER_OVERLOADED, t.strategy, t.now, true, Later(up, 2), k);
    var first := RowExpired(struck, base, m, t.now, true, Later(up, 2));
    var h := base.(role := WithSuffix(pinRole, HmmHistory));
    ExpiryKeepsDead(first, h, t.installation, PROVIDER_OVERLOADED, t.strategy, t.now, false, Later(Later(up, 2), 2), k);
    hide RowExpired, ProviderDisabled, OverloadCounted;
  }

  /** However the turn itself ended, and whatever other calls fail, a turn whose arm was dead
      leaves the row dead, if only its marker is written. */
  lemma DeadArmTurnLeavesNoPin(rows: Rows, k: Key, pinRole: Role, t: Turn, up: nat -> Weather)
    requires k.role.Tiered? && pinRole.Tiered? && up(1)(0)
    requires t.installation != 0 && k.session != 0 && !t.reason.UserForced?
    ensures Dead(AfterTurn(rows, k, pinRole, t, true, up), k, t.now)
  {
    hide AfterUpstream, AfterOverload;
    var one := AfterUpstream(rows, k, t, up(0));
    ExpiryTakesTheContinuation(one, k, t.installation, DEAD_ARM, t.strategy, t.now, up(1));
    OverloadKeepsDead(AfterDeadArm(one, k, t, true, up(1)), k, pinRole, t, up(2));
  }

  predicate SameElsewhere(rows: Rows, after: Rows, j: Key) {
    (j in after <==> j in rows) && (j in rows ==> after[j] == rows[j])
  }

  /** The second rejection of a pin, store call by store call: the count first, and without it
      nothing; then the marker, and without it only the count; then the continuation. */
  lemma SecondRejectionByCalls(rows: Rows, k: Key, t: Turn, up: Weather, j: Key)
    requires k.role.Tiered? && k in rows && StrategyMatches(rows[k], t.strategy) && rows[k].upstreamErrors >= 1
    requires Watched(t, k) && Rejects(t.outcome)
    ensures var after := AfterUpstream(rows, k, t, up);
            var c := k.(role := WithSuffix(k.role, CommandNext));
            && (!up(0) ==> after == rows)
            && (up(0) && !up(1) ==> after == rows[k := rows[k].(upstreamErrors := rows[k].upstreamErrors + 1)])
            && (up(0) && up(1) ==> ExpiredFor(after, k, UPSTREAM_STRIKES, t.now))
            && (up(0) && up(1) && up(2) ==> NoContinuation(after, k, t.strategy, t.now))
            && (!up(2) ==> SameElsewhere(rows, after, c))
            && (j != k && j != c ==> SameElsewhere(rows, after, j))
  {
    ContinuationIsAnotherRow(k);
    ExpiryTakesTheContinuation(UpstreamCounted(rows, k, t.strategy), k, t.installation, UPSTREAM_STRIKES, t.strategy,
                               t.now, Later(up, 1));
  }

  /** A served turn clears either counter with one call, and only with it. */
  lemma ServedByCalls(rows: Rows, k: Key, pinRole: Role, t: Turn, up: Weather)
    requires k.role.Tiered? && pinRole.Tiered? && k in rows && StrategyMatches(rows[k], t.strategy)
    requires Watched(t, k) && t.outcome.Served?
    ensures AfterUpstream(rows, k, t, up) == if up(0) then rows[k := rows[k].(upstreamErrors := 0)] else rows
    ensures AfterOverload(rows, k, pinRole, t, up) == if up(0) then rows[k := rows[k].(overloadErrors := 0)] else rows
  { }

  // The overload that strikes the provider out has been counted and the strike-out written.
  function StruckRow(row: Pin, provider: string): Pin {
    row.(overloadErrors := 0, disabled := row.disabled + {provider})
  }

  /** The second overload of a pin's own row, store call by store call: the count, the
      strike-out, the pin's marker, its continuation, and last the history row's marker; the
      first call that fails stops it there. */
  lemma SecondOverloadByCalls(rows: Rows, k: Key, t: Turn, up: Weather)
    requires k.role.Tiered? && k in rows && StrategyMatches(rows[k], t.strategy) && rows[k].overloadErrors >= 1
    requires Watched(t, k) && Overloads(t.outcome)
    ensures var after, h := AfterOverload(rows, k, k.role, t, up), k.(role := WithSuffix(k.role, HmmHistory));
            && (!up(0) ==> after == rows)
            && (up(0) && !up(1) ==> after == rows[k := rows[k].(overloadErrors := rows[k].overloadErrors + 1)])
            && (up(0) && up(1) && !up(2) ==> after == rows[k := StruckRow(rows[k], t.provider)])
            && (up(0) && up(1) && up(2) ==> ExpiredFor(after, k, PROVIDER_OVERLOADED, t.now))
            && (up(0) && up(1) && up(2) && up(3) ==> NoContinuation(after, k, t.strategy, t.now))
            && (if up(0) && up(1) && up(2) && up(3) && up(4) then ExpiredFor(after, h, PROVIDER_OVERLOADED, t.now)
                else SameElsewhere(rows, after, h))
  {
    ContinuationIsAnotherRow(k);
    var h, c := k.(role := WithSuffix(k.role, HmmHistory)), k.(role := WithSuffix(k.role, CommandNext));
    assert h.role.suffixes[|k.role.suffixes|] == HmmHistory && c.role.suffixes[|k.role.suffixes|] == CommandNext;
    var struck := ProviderDisabled(OverloadCounted(rows, k, t.strategy), k, t.provider, t.strategy);
    assert struck == rows[k := StruckRow(rows[k], t.provider)];
    ExpiryTakesTheContinuation(struck, k, t.installation, PROVIDER_OVERLOADED, t.strategy, t.now, Later(up, 2));
    var m := Marker(t.installation, PROVIDER_OVERLOADED, t.strategy, t.now);
    var first := RowExpired(struck, k, m, t.now, true, Later(up, 2));
    var last := RowExpired(first, h, m, t.now, false, Later(Later(up, 2), 2));
    assert up(2) && up(3) && up(4) ==> last == Upserted(first, h, m, t.now);
    assert k.(role := k.role) == k;
  }

  // ------------------------------------------------- where eviction falls short ----

  /** Exactly when a strike eviction clears the counters: when the marker's empty model, or
      its strategy, is a change to the row.  The overload counter is besides reset by the
      strike-out itself. */
  lemma EvictionClearsStrikesExactlyWhen(rows: Rows, k: Key, pinRole: Role, t: Turn)
    requires k.role.Tiered? && KeepsStrikesOf(k.role, pinRole)
    requires k in rows && StrategyMatches(rows[k], t.strategy) && Watched(t, k)
    ensures var changes := rows[k].model != "" || rows[k].strategy != t.strategy;
            && (Rejects(t.outcome) && rows[k].upstreamErrors >= 1 ==>
                  var after := AfterUpstream(rows, k, t, Sunny());
                  && Evicted(after, k, t.now)
                  && (after[k].upstreamErrors == 0 <==> changes)
                  && (after[k].overloadErrors == 0 <==> changes || rows[k].overloadErrors == 0))
            && (Overloads(t.outcome) && rows[k].overloadErrors >= 1 ==>
                  var after := AfterOverload(rows, k, pinRole, t, Sunny());
                  && Evicted(after, k, t.now)
                  && after[k].overloadErrors == 0
                  && (after[k].upstreamErrors == 0 <==> changes || rows[k].upstreamErrors == 0))
  {
    if Rejects(t.outcome) && rows[k].upstreamErrors >= 1 { SecondRejectionMarks(rows, k, t); }
    if Overloads(t.outcome) && rows[k].overloadErrors >= 1 { SecondOverloadMarks(rows, k, pinRole, t); }
  }

  /** What a surviving count costs: after a strike eviction and the next write p that makes
      the row live again, one more rejected turn evicts on its own exactly when neither the
      marker nor p changed the row's model or strategy, as on a history row, whose model
      stays empty. */
  lemma NextRejectionEvictsAloneExactlyWhen(rows: Rows, k: Key, t: Turn, p: Incoming, at: int, next: Turn)
    requires k.role.Tiered? && k in rows && StrategyMatches(rows[k], t.strategy) && rows[k].upstreamErrors >= 1
    requires Watched(t, k) && Rejects(t.outcome) && Watched(next, k) && Rejects(next.outcome)
    requires next.strategy == p.strategy && p.until > next.now
    ensures var back := Upserted(AfterUpstream(rows, k, t, Sunny()), k, p, at);
            Evicted(AfterUpstream(back, k, next, Sunny()), k, next.now) <==>
            rows[k].model == "" && rows[k].strategy == t.strategy && p.model == "" && p.strategy == t.strategy
  {
    SecondRejectionMarks(rows, k, t);
    var back := Upserted(AfterUpstream(rows, k, t, Sunny()), k, p, at);
    if back[k].upstreamErrors >= 1 {
      SecondRejectionMarks(back, k, next);
    } else {
      assert AfterUpstream(back, k, next, Sunny())[k].until == p.until;
    }
  }

  /** A strike-out is remembered across the eviction exactly when the row already carries the
      turn's strategy: on a legacy row, stored before strategies were, the marker's strategy
      change wipes the list the strike-out was just put on. */
  lemma StrikeOutSurvivesExactlyUnderItsStrategy(rows: Rows, k: Key, pinRole: Role, t: Turn)
    requires k.role.Tiered? && KeepsStrikesOf(k.role, pinRole)
    requires k in rows && StrategyMatches(rows[k], t.strategy) && rows[k].overloadErrors >= 1
    requires Watched(t, k) && Overloads(t.outcome)
    ensures var after := AfterOverload(rows, k, pinRole, t, Sunny());
            && Evicted(after, k, t.now)
            && (t.provider in after[k].disabled <==> rows[k].strategy == t.strategy)
  {
    SecondOverloadMarks(rows, k, pinRole, t);
  }
}
