/** The session-pin table: its rows, the effect of each query of
    db/queries/session_pins.sql, and the names of the roles a row is stored under
    (internal/proxy/turnloop.go, force_model.go, command_continuation.go). */
module PinStore {
  import opened Wrappers

  // -------------------------------------------------------------------------- roles ----

  datatype Tier = TierUnknown | TierLow | TierMid | TierHigh

  datatype Suffix = HmmHistory | ForceHistory | CommandNext

  // A role by construction: the force control role, or a tier's role with suffixes put on
  // by the naming functions.
  datatype Role = ForceControl | Tiered(tier: Tier, suffixes: seq<Suffix>)

  function BaseName(t: Tier): string {
    match t
    case TierUnknown => "default"
    case TierLow => "default_low"
    case TierMid => "default_mid"
    case TierHigh => "default_high"
  }

  function SuffixName(s: Suffix): string {
    match s
    case HmmHistory => "_hmm_history"
    case ForceHistory => "_force_hist"
    case CommandNext => "_cmd_next"
  }

  function TieredName(t: Tier, ss: seq<Suffix>): string {
    if ss == [] then BaseName(t) else TieredName(t, ss[..|ss| - 1]) + SuffixName(ss[|ss| - 1])
  }

  // The text stored in the role column.
  function Name(r: Role): string {
    match r
    case ForceControl => "force_model"
    case Tiered(t, ss) => TieredName(t, ss)
  }

  // The last two characters of a name say how it was made.
  function Ending(s: string): string {
    if |s| < 2 then s else s[|s| - 2..]
  }

  lemma BaseEndings(t: Tier)
    ensures |BaseName(t)| >= 7 && BaseName(t)[0] == 'd'
    ensures Ending(BaseName(t))
         == match t case TierUnknown => "lt" case TierLow => "ow" case TierMid => "id" case TierHigh => "gh"
  { }

  lemma SuffixEndings(s: Suffix)
    ensures |SuffixName(s)| >= 9
    ensures Ending(SuffixName(s)) == match s case HmmHistory => "ry" case ForceHistory => "st" case CommandNext => "xt"
  { }

  lemma EndingOfSum(a: string, b: string)
    requires |b| >= 2
    ensures Ending(a + b) == Ending(b)
  { }

  lemma TieredEnding(t: Tier, ss: seq<Suffix>)
    ensures Ending(TieredName(t, ss)) == if ss == [] then Ending(BaseName(t)) else Ending(SuffixName(ss[|ss| - 1]))
  {
    if ss != [] {
      SuffixEndings(ss[|ss| - 1]);
      EndingOfSum(TieredName(t, ss[..|ss| - 1]), SuffixName(ss[|ss| - 1]));
    }
  }

  lemma EndingTellsSuffix(a: Suffix, b: Suffix)
    requires Ending(SuffixName(a)) == Ending(SuffixName(b))
    ensures a == b
  {
    SuffixEndings(a);
    SuffixEndings(b);
    assert "ry"[0] != "st"[0] && "st"[0] != "xt"[0] && "ry"[0] != "xt"[0];
  }

  lemma EndingTellsBase(a: Tier, b: Tier)
    requires Ending(BaseName(a)) == Ending(BaseName(b))
    ensures a == b
  {
    BaseEndings(a);
    BaseEndings(b);
    assert "lt"[0] == 'l' && "ow"[0] == 'o' && "id"[0] == 'i' && "gh"[0] == 'g';
  }

  lemma BaseIsNoSuffix(t: Tier, s: Suffix)
    ensures Ending(BaseName(t)) != Ending(SuffixName(s))
  {
    BaseEndings(t);
    SuffixEndings(s);
    assert "lt"[0] == 'l' && "ow"[0] == 'o' && "id"[0] == 'i' && "gh"[0] == 'g';
    assert "ry"[0] == 'r' && "st"[0] == 's' && "xt"[0] == 'x';
  }

  lemma {:induction false} TieredNamesAreDistinct(t: Tier, ss: seq<Suffix>, u: Tier, vs: seq<Suffix>)
    requires TieredName(t, ss) == TieredName(u, vs)
    ensures t == u && ss == vs
    decreases |ss|
  {
    hide BaseName, SuffixName, Ending;
    TieredEnding(t, ss);
    TieredEnding(u, vs);
    if ss == [] && vs == [] {
      EndingTellsBase(t, u);
    } else if ss == [] {
      BaseIsNoSuffix(t, vs[|vs| - 1]);
    } else if vs == [] {
      BaseIsNoSuffix(u, ss[|ss| - 1]);
    } else {
      var a, b := ss[|ss| - 1], vs[|vs| - 1];
      EndingTellsSuffix(a, b);
      var x, y := TieredName(t, ss[..|ss| - 1]), TieredName(u, vs[..|vs| - 1]);
      assert x == (x + SuffixName(a))[..|x|] && y == (y + SuffixName(b))[..|y|];
      TieredNamesAreDistinct(t, ss[..|ss| - 1], u, vs[..|vs| - 1]);
      assert ss == ss[..|ss| - 1] + [a] && vs == vs[..|vs| - 1] + [b];
    }
  }

  lemma {:induction false} TieredNamesStartWithD(t: Tier, ss: seq<Suffix>)
    ensures |TieredName(t, ss)| >= 7 && TieredName(t, ss)[0] == 'd'
  {
    if ss == [] { BaseEndings(t); } else { TieredNamesStartWithD(t, ss[..|ss| - 1]); }
  }

  /** Different roles have different names, however many suffixes are put on: no suffixed
      role collides with another, nor with the force control role. */
  lemma RoleNamesAreDistinct(a: Role, b: Role)
    requires Name(a) == Name(b)
    ensures a == b
  {
    assert "force_model"[0] == 'f';
    if a.Tiered? { TieredNamesStartWithD(a.tier, a.suffixes); }
    if b.Tiered? { TieredNamesStartWithD(b.tier, b.suffixes); }
    if a.Tiered? && b.Tiered? { TieredNamesAreDistinct(a.tier, a.suffixes, b.tier, b.suffixes); }
  }

  const ROLE_COLUMN_WIDTH := 32

  /** One suffix always fits the role column; a continuation derived from a history role of
      the top tier does not. */
  lemma OneSuffixFits(t: Tier, s: Suffix)
    ensures |Name(Tiered(t, [s]))| <= ROLE_COLUMN_WIDTH
    ensures |Name(Tiered(t, [HmmHistory, CommandNext]))| > ROLE_COLUMN_WIDTH <==> t.TierHigh?
  {
    assert [s][..0] == [] && [HmmHistory, CommandNext][..1] == [HmmHistory] && [HmmHistory][..0] == [];
    assert |TieredName(t, [s])| == |BaseName(t)| + |SuffixName(s)|;
    assert |TieredName(t, [HmmHistory])| == |BaseName(t)| + 12;
    assert |TieredName(t, [HmmHistory, CommandNext])| == |BaseName(t)| + 12 + 9;
  }

  function WithSuffix(r: Role, s: Suffix): Role
    requires r.Tiered?
  {
    r.(suffixes := r.suffixes + [s])
  }

  // --------------------------------------------------------------------------- rows ----

  // Session 0 and installation 0 stand for the zero key and the nil installation.
  type Session = nat

  datatype Key = Key(session: Session, role: Role)

  datatype Strategy = Unset | Cluster | Hmm | HmmEmbedding | HmmBeta

  // decision_reason; a forced reason may carry a clamp suffix.
  datatype Reason =
    | UserForced(clamped: bool)
    | UserUnforced
    | LoopEscalated
    | StruggleEscalated
    | OtherReason(text: string)

  datatype Pin = Pin(
    installation: nat,
    provider: string,
    model: string,
    pairedProvider: string,
    pairedModel: string,
    reason: Reason,
    strategy: Strategy,
    group: string,
    turnCount: int,
    firstAt: int,
    until: int,
    lastServed: string,
    lastOutput: int,
    everSwitched: bool,
    upstreamErrors: nat,
    overloadErrors: nat,
    disabled: set<string>)

  // The columns an upsert supplies; usage, counters and strike-outs are not among them.
  datatype Incoming = Incoming(
    installation: nat,
    provider: string,
    model: string,
    pairedProvider: string,
    pairedModel: string,
    reason: Reason,
    strategy: Strategy,
    group: string,
    turnCount: int,
    until: int)

  datatype Usage = Usage(
    strategy: Strategy,
    output: int,
    model: string,
    provider: string,
    priorModel: string,
    everSwitched: bool)

  type Rows = map<Key, Pin>

  const NEVER_EXPIRES := 253_370_764_800

  predicate StrategyMatches(p: Pin, expected: Strategy) {
    p.strategy == expected || (p.strategy.Unset? && !expected.HmmBeta?)
  }

  /** Rows of one strategy are not another's: a row matches its own, and a row from before
      strategies were stored matches all but the beta, which matches only its own. */
  lemma StrategiesKeepApart(p: Pin, a: Strategy, b: Strategy)
    ensures a != b && StrategyMatches(p, a) && StrategyMatches(p, b) ==> p.strategy.Unset?
    ensures StrategyMatches(p, HmmBeta) <==> p.strategy.HmmBeta?
    ensures p.strategy.Unset? && !a.HmmBeta? ==> StrategyMatches(p, a)
    ensures StrategyMatches(p, p.strategy)
  { }

  // pinMatchesEffectiveStrategy: a user force is policy-independent.
  predicate Effective(p: Pin, s: Strategy) {
    p.reason.UserForced? || StrategyMatches(p, s)
  }

  function Inserted(p: Incoming, now: int): Pin {
    Pin(p.installation, p.provider, p.model, p.pairedProvider, p.pairedModel, p.reason, p.strategy, p.group,
        p.turnCount, now, p.until, "", 0, false, 0, 0, {})
  }

  // The ON CONFLICT clause.
  function Merged(row: Pin, p: Incoming, now: int): Pin {
    var same := row.strategy == p.strategy;
    var keep := same && row.model == p.model;
    Pin(row.installation, p.provider, p.model,
        if p.pairedModel != "" then p.pairedProvider else if keep then row.pairedProvider else "",
        if p.pairedModel != "" then p.pairedModel else if keep then row.pairedModel else "",
        p.reason, p.strategy,
        if p.group != "" then p.group else if keep then row.group else "",
        if same then row.turnCount + 1 else p.turnCount,
        if same then row.firstAt else now,
        p.until,
        if same then row.lastServed else "",
        if same then row.lastOutput else 0,
        same && row.everSwitched,
        if keep then row.upstreamErrors else 0,
        if keep then row.overloadErrors else 0,
        if same then row.disabled else {})
  }

  function Upserted(rows: Rows, k: Key, p: Incoming, now: int): Rows {
    rows[k := if k in rows then Merged(rows[k], p, now) else Inserted(p, now)]
  }

  // An UPDATE of the row, when it exists under the expected strategy.
  function Updated(rows: Rows, k: Key, expected: Strategy, f: Pin -> Pin): Rows {
    if k in rows && StrategyMatches(rows[k], expected) then rows[k := f(rows[k])] else rows
  }

  function WithUsage(u: Usage): Pin -> Pin {
    (row: Pin) => row.(
      lastOutput := u.output,
      provider := u.provider,
      everSwitched := row.everSwitched || u.everSwitched
        || (row.lastServed != "" && row.lastServed != u.model) || (u.priorModel != "" && u.priorModel != u.model),
      lastServed := u.model)
  }

  function UsageWritten(rows: Rows, k: Key, u: Usage): Rows {
    Updated(rows, k, u.strategy, WithUsage(u))
  }

  function UpstreamCounted(rows: Rows, k: Key, s: Strategy): Rows {
    Updated(rows, k, s, (row: Pin) => row.(upstreamErrors := row.upstreamErrors + 1))
  }

  function UpstreamReset(rows: Rows, k: Key, s: Strategy): Rows {
    Updated(rows, k, s, (row: Pin) => row.(upstreamErrors := 0))
  }

  function OverloadCounted(rows: Rows, k: Key, s: Strategy): Rows {
    Updated(rows, k, s, (row: Pin) => row.(overloadErrors := row.overloadErrors + 1))
  }

  function OverloadReset(rows: Rows, k: Key, s: Strategy): Rows {
    Updated(rows, k, s, (row: Pin) => row.(overloadErrors := 0))
  }

  function ProviderDisabled(rows: Rows, k: Key, provider: string, s: Strategy): Rows {
    Updated(rows, k, s, (row: Pin) => row.(disabled := row.disabled + {provider}, overloadErrors := 0))
  }

  predicate Consumable(rows: Rows, k: Key, s: Strategy, now: int) {
    k in rows && StrategyMatches(rows[k], s) && rows[k].until > now
  }

  function Consumed(rows: Rows, k: Key, s: Strategy, now: int): Rows {
    if Consumable(rows, k, s, now) then rows - {k} else rows
  }

  /** What an upsert may leave behind from the row before: the runner-up pair, the policy
      group and the strikes only for the same model under the same strategy; history, switch
      evidence and struck-out providers only under the same strategy. */
  lemma NothingStaleSurvives(rows: Rows, k: Key, p: Incoming, now: int)
    requires k in rows
    ensures var was, row := rows[k], Upserted(rows, k, p, now)[k];
            && (row.pairedModel != "" && row.pairedModel != p.pairedModel ==>
                  row.pairedModel == was.pairedModel && row.pairedProvider == was.pairedProvider
                  && was.model == row.model && was.strategy == row.strategy)
            && (row.group != "" && row.group != p.group ==>
                  row.group == was.group && was.model == row.model && was.strategy == row.strategy)
            && (row.upstreamErrors + row.overloadErrors > 0 ==> was.model == row.model && was.strategy == row.strategy)
            && (row.lastServed != "" || row.lastOutput != 0 || row.everSwitched || row.disabled != {} ==>
                  && was.strategy == row.strategy && row.lastServed == was.lastServed
                  && row.lastOutput == was.lastOutput && row.everSwitched == was.everSwitched
                  && row.disabled == was.disabled)
    ensures forall j | j != k :: (j in Upserted(rows, k, p, now) <==> j in rows)
                              && (j in rows ==> Upserted(rows, k, p, now)[j] == rows[j])
  { }

  // A run of upserts on one row, each with its time.
  function UpsertedAll(rows: Rows, k: Key, ps: seq<(Incoming, int)>): Rows {
    if ps == [] then rows
    else Upserted(UpsertedAll(rows, k, ps[..|ps| - 1]), k, ps[|ps| - 1].0, ps[|ps| - 1].1)
  }

  /** A row's turn clock: it starts with the write that makes the row, or that changes its
      strategy, and from there every write under the strategy, whatever its model, counts one
      turn and leaves the start alone; the columns a write supplies are always its own. */
  lemma {:induction false} TurnsAreCounted(rows: Rows, k: Key, first: Incoming, at: int, ps: seq<(Incoming, int)>)
    requires k in rows ==> rows[k].strategy != first.strategy
    requires forall i | 0 <= i < |ps| :: ps[i].0.strategy == first.strategy
    ensures var after := UpsertedAll(Upserted(rows, k, first, at), k, ps);
            && k in after && after[k].strategy == first.strategy
            && after[k].turnCount == first.turnCount + |ps| && after[k].firstAt == at
            && var last := if ps == [] then first else ps[|ps| - 1].0;
               && after[k].model == last.model && after[k].provider == last.provider
               && after[k].reason == last.reason && after[k].until == last.until
               && (last.pairedModel != "" ==>
                     after[k].pairedModel == last.pairedModel && after[k].pairedProvider == last.pairedProvider)
               && (last.group != "" ==> after[k].group == last.group)
  {
    if ps != [] { TurnsAreCounted(rows, k, first, at, ps[..|ps| - 1]); }
  }

  // A run of usage writes on one row.
  function UsageAll(rows: Rows, k: Key, us: seq<Usage>): Rows {
    if us == [] then rows else UsageWritten(UsageAll(rows, k, us[..|us| - 1]), k, us[|us| - 1])
  }

  // What the row last served before write i of the run.
  function ServedBefore(row: Pin, us: seq<Usage>, i: nat): string
    requires i <= |us|
  {
    if i == 0 then row.lastServed else us[i - 1].model
  }

  /** A switch of served models is remembered exactly when one happened: over any run of usage
      writes the row's strategy lets through, the flag is up at the end if and only if it was
      up, a write brought it, or a write served another model than the row last had, or than
      the one it says came before.  The last write's model, provider and output are the row's. */
  lemma {:induction false} SwitchesAreRemembered(rows: Rows, k: Key, us: seq<Usage>)
    requires k in rows && forall i | 0 <= i < |us| :: StrategyMatches(rows[k], us[i].strategy)
    ensures var after, was := UsageAll(rows, k, us), rows[k];
            && k in after && after[k].strategy == was.strategy && after[k].model == was.model
            && after[k].lastServed == ServedBefore(was, us, |us|)
            && (us != [] ==> after[k].provider == us[|us| - 1].provider && after[k].lastOutput == us[|us| - 1].output)
            && (after[k].everSwitched <==> was.everSwitched || exists i :: 0 <= i < |us| && SwitchesAt(was, us, i))
  {
    if us != [] {
      var n := |us| - 1;
      SwitchesAreRemembered(rows, k, us[..n]);
      assert forall i | 0 <= i < n :: SwitchesAt(rows[k], us[..n], i) == SwitchesAt(rows[k], us, i);
      if i :| 0 <= i < |us| && SwitchesAt(rows[k], us, i) {
        assert i < n ==> SwitchesAt(rows[k], us[..n], i);
      }
      assert SwitchesAt(rows[k], us, n) ==> exists i :: 0 <= i < |us| && SwitchesAt(rows[k], us, i);
    }
  }

  // Write i of the run shows a switch.
  predicate SwitchesAt(row: Pin, us: seq<Usage>, i: nat)
    requires i < |us|
  {
    || us[i].everSwitched
    || (ServedBefore(row, us, i) != "" && ServedBefore(row, us, i) != us[i].model)
    || (us[i].priorModel != "" && us[i].priorModel != us[i].model)
  }

  const SWEEP_GRACE := 86_400

  /** The hourly sweep takes exactly the rows that have been dead for more than a day, so none
      that could still serve, and changes no other. */
  lemma SweepTakesTheLongDead(rows: Rows, now: int, k: Key)
    ensures k in Swept(rows, now) <==> k in rows && rows[k].until + 86_400 >= now
    ensures k in Swept(rows, now) ==> Swept(rows, now)[k] == rows[k]
    ensures k in rows && rows[k].until > now ==> k in Swept(rows, now)
  { }

  function Swept(rows: Rows, now: int): Rows {
    map k | k in rows && rows[k].until >= now - SWEEP_GRACE :: rows[k]
  }

  /** The table itself.  Every call takes whether the database answers (up): a call that
      fails changes nothing and reports an error. */
  class SessionPins {
    var rows: Rows

    constructor ()
      ensures rows == map[]
    {
      rows := map[];
    }

    method Get(k: Key, up: bool) returns (pin: Option<Pin>, err: bool)
      ensures err == !up
      ensures pin == if up && k in rows then Some(rows[k]) else None
    {
      if !up {
        return None, true;
      }
      return if k in rows then Some(rows[k]) else None, false;
    }

    method Upsert(k: Key, p: Incoming, now: int, up: bool) returns (err: bool)
      modifies this
      ensures err == !up
      ensures rows == if up then Upserted(old(rows), k, p, now) else old(rows)
    {
      if up {
        rows := Upserted(rows, k, p, now);
      }
      err := !up;
    }

    method UpdateUsage(k: Key, u: Usage, up: bool) returns (err: bool)
      modifies this
      ensures err == !up
      ensures rows == if up then UsageWritten(old(rows), k, u) else old(rows)
    {
      if up {
        rows := UsageWritten(rows, k, u);
      }
      err := !up;
    }

    method IncrementUpstreamErrors(k: Key, s: Strategy, up: bool) returns (count: nat, err: bool)
      modifies this
      ensures err == !up
      ensures rows == if up then UpstreamCounted(old(rows), k, s) else old(rows)
      ensures count == if up && k in rows && StrategyMatches(rows[k], s) then rows[k].upstreamErrors else 0
    {
      if !up {
        return 0, true;
      }
      rows := UpstreamCounted(rows, k, s);
      return if k in rows && StrategyMatches(rows[k], s) then rows[k].upstreamErrors else 0, false;
    }

    method ResetUpstreamErrors(k: Key, s: Strategy, up: bool) returns (err: bool)
      modifies this
      ensures err == !up
      ensures rows == if up then UpstreamReset(old(rows), k, s) else old(rows)
    {
      if up {
        rows := UpstreamReset(rows, k, s);
      }
      err := !up;
    }

    method IncrementOverloadErrors(k: Key, s: Strategy, up: bool) returns (count: nat, err: bool)
      modifies this
      ensures err == !up
      ensures rows == if up then OverloadCounted(old(rows), k, s) else old(rows)
      ensures count == if up && k in rows && StrategyMatches(rows[k], s) then rows[k].overloadErrors else 0
    {
      if !up {
        return 0, true;
      }
      rows := OverloadCounted(rows, k, s);
      return if k in rows && StrategyMatches(rows[k], s) then rows[k].overloadErrors else 0, false;
    }

    method ResetOverloadErrors(k: Key, s: Strategy, up: bool) returns (err: bool)
      modifies this
      ensures err == !up
      ensures rows == if up then OverloadReset(old(rows), k, s) else old(rows)
    {
      if up {
        rows := OverloadReset(rows, k, s);
      }
      err := !up;
    }

    method DisableProvider(k: Key, provider: string, s: Strategy, up: bool) returns (err: bool)
      modifies this
      ensures err == !up
      ensures rows == if up then ProviderDisabled(old(rows), k, provider, s) else old(rows)
    {
      if up {
        rows := ProviderDisabled(rows, k, provider, s);
      }
      err := !up;
    }

    method Consume(k: Key, s: Strategy, now: int, up: bool) returns (pin: Option<Pin>, err: bool)
      modifies this
      ensures err == !up
      ensures rows == if up then Consumed(old(rows), k, s, now) else old(rows)
      ensures pin == if up && Consumable(old(rows), k, s, now) then Some(old(rows)[k]) else None
    {
      if !up {
        return None, true;
      }
      pin := if Consumable(rows, k, s, now) then Some(rows[k]) else None;
      rows := Consumed(rows, k, s, now);
      err := false;
    }

    method SweepExpired(now: int, up: bool) returns (err: bool)
      modifies this
      ensures err == !up
      ensures rows == if up then Swept(old(rows), now) else old(rows)
    {
      if up {
        rows := Swept(rows, now);
      }
      err := !up;
    }
  }
}
