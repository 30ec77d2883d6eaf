/** Whole runs over the pin table: every handler that writes it, in any order, with any
    store call failing at any time, and the cleanup behind /beta (internal/proxy/beta.go). */
module SessionRuns {
  import opened Wrappers
  import opened PinStore
  import opened PinEviction
  import opened ForceModel
  import opened Escalation

  datatype State = State(rows: Rows, loops: seq<Event>, struggles: seq<Event>)

  const INITIAL := State(map[], [], [])

  // A tier's own role, and the roles a turn's state is kept under.
  predicate IsThread(r: Role) { r.Tiered? && r.suffixes == [] }

  predicate IsSticky(r: Role) { r.Tiered? && (r.suffixes == [] || r.suffixes == [HmmHistory]) }

  predicate IsHistory(r: Role) { r.Tiered? && (r.suffixes == [HmmHistory] || r.suffixes == [ForceHistory]) }

  predicate IsOneShot(r: Role) { r.Tiered? && r.suffixes == [CommandNext] }

  // ------------------------------------------------------- the cleanup behind /beta ----

  // A tier's own row, its history and its pending continuation.
  function TierKeys(session: Session, t: Tier): seq<Key> {
    [Key(session, Tiered(t, [])), Key(session, Tiered(t, [HmmHistory])), Key(session, Tiered(t, [CommandNext]))]
  }

  function StateKeys(session: Session): seq<Key> {
    TierKeys(session, TierUnknown) + TierKeys(session, TierLow) + TierKeys(session, TierMid)
      + TierKeys(session, TierHigh)
  }

  function AllConsumed(rows: Rows, keys: seq<Key>, s: Strategy, now: int, up: Weather): Rows {
    if keys == [] then rows
    else
      var before := AllConsumed(rows, keys[..|keys| - 1], s, now, up);
      if up(|keys| - 1) then Consumed(before, keys[|keys| - 1], s, now) else before
  }

  /** invalidateSessionRoutingState: a failed call is passed over and reported at the end. */
  method InvalidateSessionRoutingState(store: SessionPins, session: Session, s: Strategy, now: int, up: Weather)
    returns (err: bool)
    modifies store
    ensures store.rows == AllConsumed(old(store.rows), StateKeys(session), s, now, up)
    ensures err <==> exists i :: 0 <= i < 12 && !up(i)
  {
    err := false;
    var keys := StateKeys(session);
    for i := 0 to |keys|
      invariant store.rows == AllConsumed(old(store.rows), keys[..i], s, now, up)
      invariant err <==> exists j :: 0 <= j < i && !up(j)
    {
      assert keys[..i + 1][..i] == keys[..i];
      var _, failed := store.Consume(keys[i], s, now, up(i));
      err := err || failed;
    }
    assert keys[..|keys|] == keys;
  }

  lemma {:induction false} ConsumedStaysConsumed(rows: Rows, keys: seq<Key>, s: Strategy, now: int, up: Weather, k: Key)
    requires forall i | 0 <= i < |keys| :: up(i)
    ensures k in AllConsumed(rows, keys, s, now, up) ==> k in rows && AllConsumed(rows, keys, s, now, up)[k] == rows[k]
    ensures k in keys ==> !Consumable(AllConsumed(rows, keys, s, now, up), k, s, now)
    ensures k !in keys && k in rows ==> k in AllConsumed(rows, keys, s, now, up)
  {
    if keys != [] {
      var n := |keys| - 1;
      ConsumedStaysConsumed(rows, keys[..n], s, now, up, k);
      assert keys == keys[..n] + [keys[n]];
    }
  }

  lemma TierKeysHold(session: Session, t: Tier, k: Key)
    ensures k in TierKeys(session, t) <==>
            k.session == session && (IsSticky(k.role) || IsOneShot(k.role)) && k.role.tier == t
  {
    var keys := TierKeys(session, t);
    if k.session == session && (IsSticky(k.role) || IsOneShot(k.role)) && k.role.tier == t {
      assert k == keys[0] || k == keys[1] || k == keys[2];
    }
  }

  lemma StateKeysHold(session: Session, k: Key)
    ensures k in StateKeys(session) <==> k.session == session && (IsSticky(k.role) || IsOneShot(k.role))
  {
    hide TierKeys;
    TierKeysHold(session, TierUnknown, k);
    TierKeysHold(session, TierLow, k);
    TierKeysHold(session, TierMid, k);
    TierKeysHold(session, TierHigh, k);
    var a, b, c, d := TierKeys(session, TierUnknown), TierKeys(session, TierLow), TierKeys(session, TierMid),
      TierKeys(session, TierHigh);
    assert k in a + b + c + d <==> k in a || k in b || k in c || k in d;
  }

  /** With the store answering, the cleanup leaves no live state of the strategy just left
      under any role of the session, and touches no row at another role or session. */
  lemma ToggleLeavesNoLiveState(rows: Rows, session: Session, s: Strategy, now: int, k: Key)
    ensures var after := AllConsumed(rows, StateKeys(session), s, now, Sunny());
            if k.session == session && (IsSticky(k.role) || IsOneShot(k.role))
            then !Consumable(after, k, s, now)
            else k in rows ==> k in after && after[k] == rows[k]
  {
    hide StateKeys, AllConsumed;
    StateKeysHold(session, k);
    ConsumedStaysConsumed(rows, StateKeys(session), s, now, Sunny(), k);
  }

  // ---------------------------------------------------------------------------- runs ----

  datatype Step =
    | SetForce(session: Session, installation: nat, model: string, provider: string, now: int, up: Weather)
    | ClearForce(session: Session, installation: nat, now: int, up: Weather)
    | ClearLegacy(session: Session, installation: nat, strategy: Strategy, now: int, weather: nat -> Weather)
    | Loops(loop: LoopTurn, recorded: bool, up: Weather)
    | Struggles(struggle: StruggleTurn, recorded: bool, up: Weather)
    | Finishes(key: Key, pinRole: Role, turn: Turn, deadArm: bool, weather: nat -> Weather)
    | Degenerates(key: Key, turn: Turn, up: Weather)
    | Breaks(key: Key, marker: Incoming, now: int, up: Weather)      // no-progress and repetition breaks
    | Expires(key: Key, marker: Incoming, now: int, up: Weather)     // an ineligible escalation pin
    | Grants(key: Key, installation: nat, strategy: Strategy, now: int, up: Weather)
    | Takes(key: Key, strategy: Strategy, now: int, ok: bool)
    | Writes(key: Key, pin: Incoming, now: int, ok: bool)            // refresh, new pin, history, refusal re-pin
    | Records(key: Key, usage: Usage, ok: bool)
    | Toggles(session: Session, strategy: Strategy, now: int, up: Weather)
    | Sweeps(now: int)

  // The roles each handler is called with.
  predicate WellRoled(s: Step) {
    match s
    case SetForce(_, _, _, _, _, _) => true
    case ClearForce(_, _, _, _) => true
    case ClearLegacy(_, _, _, _, _) => true
    case Loops(t, _, _) => IsThread(t.key.role)
    case Struggles(t, _, _) => IsThread(t.key.role)
    case Finishes(k, pinRole, _, _, _) => IsSticky(k.role) && IsThread(pinRole)
    case Degenerates(k, _, _) => IsSticky(k.role)
    case Breaks(k, _, _, _) => IsThread(k.role)
    case Expires(k, _, _, _) => IsThread(k.role)
    case Grants(k, _, _, _, _) => IsThread(k.role)
    case Takes(k, _, _, _) => IsThread(k.role)
    case Writes(k, _, _, _) => IsThread(k.role) || IsHistory(k.role)
    case Records(k, _, _) => IsThread(k.role) || IsHistory(k.role)
    case Toggles(_, _, _, _) => true
    case Sweeps(_) => true
  }

  // The step as a program point can take it: its roles are right, and the clock has not
  // passed the never-expires sentinel.
  predicate Possible(s: Step) {
    WellRoled(s) && (s.Sweeps? ==> s.now < NEVER_EXPIRES)
  }

  function Next(st: State, s: Step): State
    requires WellRoled(s)
  {
    match s
    case SetForce(f, inst, model, provider, now, up) =>
      st.(rows := ControlWritten(st.rows, f, ForcedRow(inst, model, provider), now, up).rows)
    case ClearForce(f, inst, now, up) =>
      st.(rows := ControlWritten(st.rows, f, ClearedRow(inst), now, up).rows)
    case ClearLegacy(f, inst, strategy, now, weather) =>
      if inst == 0 then st else st.(rows := LegacyCleared(st.rows, f, CLEAR_TIERS, inst, strategy, now, weather).rows)
    case Loops(t, recorded, up) =>
      var after := AfterLoop(st.rows, st.loops, t, recorded, up);
      st.(rows := after.rows, loops := after.events)
    case Struggles(t, recorded, up) =>
      var after := AfterStruggle(st.rows, st.struggles, t, recorded, up);
      st.(rows := after.rows, struggles := after.events)
    case Finishes(k, pinRole, turn, deadArm, weather) =>
      st.(rows := AfterTurn(st.rows, k, pinRole, turn, deadArm, weather))
    case Degenerates(k, turn, up) => st.(rows := AfterDegenerate(st.rows, k, turn, up))
    case Breaks(k, marker, now, up) => st.(rows := BothExpired(st.rows, k, marker, now, up))
    case Expires(k, marker, now, up) => st.(rows := RowExpired(st.rows, k, marker, now, true, up))
    case Grants(k, inst, strategy, now, up) => st.(rows := Granted(st.rows, k, inst, strategy, now, up))
    case Takes(k, strategy, now, ok) =>
      if ok then st.(rows := Consumed(st.rows, ContinuationKey(k), strategy, now)) else st
    case Writes(k, pin, now, ok) => if ok then st.(rows := Upserted(st.rows, k, pin, now)) else st
    case Records(k, usage, ok) => if ok then st.(rows := UsageWritten(st.rows, k, usage)) else st
    case Toggles(session, strategy, now, up) => st.(rows := AllConsumed(st.rows, StateKeys(session), strategy, now, up))
    case Sweeps(now) => st.(rows := Swept(st.rows, now))
  }

  /** The machine's steps are the handlers themselves, run on the table and the two event
      tables. */
  method Take(store: SessionPins, loops: EventLog, struggles: EventLog, s: Step)
    requires WellRoled(s) && loops != struggles
    requires (s.Loops? ==> loops.wired == s.recorded) && (s.Struggles? ==> struggles.wired == s.recorded)
    modifies store, loops, struggles
    ensures State(store.rows, loops.rows, struggles.rows) == Next(old(State(store.rows, loops.rows, struggles.rows)), s)
  {
    match s
    case SetForce(f, inst, model, provider, now, up) =>
      var _ := SetForceModelSessionPin(store, f, inst, model, provider, now, up);
    case ClearForce(f, inst, now, up) => var _ := ClearForceModelSessionPin(store, f, inst, now, up);
    case ClearLegacy(f, inst, strategy, now, weather) =>
      var _ := ClearLegacyForceModelPins(store, f, inst, strategy, now, weather);
    case Loops(t, _, up) => HandleLoopEscalation(store, loops, t, up);
    case Struggles(t, _, up) => HandleStruggleEscalation(store, struggles, t, up);
    case Finishes(k, pinRole, turn, deadArm, weather) => FinishTurn(store, k, pinRole, turn, deadArm, weather);
    case Degenerates(k, turn, up) => EvictPinAfterDegenerateResponse(store, k, turn, up);
    case Breaks(k, marker, now, up) => var _ := ExpireSessionPinAndHMMHistory(store, k, marker, now, up);
    case Expires(k, marker, now, up) => var _ := ExpireSessionPinRow(store, k, marker, now, true, up);
    case Grants(k, inst, strategy, now, up) => GrantPostCommandContinuation(store, k, inst, strategy, now, up);
    case Takes(k, strategy, now, ok) => var _ := ConsumePostCommandContinuation(store, k, strategy, now, ok);
    case Writes(k, pin, now, ok) => var _ := store.Upsert(k, pin, now, ok);
    case Records(k, usage, ok) => var _ := store.UpdateUsage(k, usage, ok);
    case Toggles(session, strategy, now, up) =>
      var _ := InvalidateSessionRoutingState(store, session, strategy, now, up);
    case Sweeps(now) => var _ := store.SweepExpired(now, true);
  }

  predicate AllPossible(steps: seq<Step>) { forall i | 0 <= i < |steps| :: Possible(steps[i]) }

  function Run(steps: seq<Step>): State
    requires AllPossible(steps)
  {
    if steps == [] then INITIAL else Next(Run(steps[..|steps| - 1]), steps[|steps| - 1])
  }

  // ------------------------------------------------------------ the force control rows ----

  function Controls(rows: Rows): Rows { map k | k in rows && k.role.ForceControl? :: rows[k] }

  lemma UpsertKeepsControls(rows: Rows, k: Key, p: Incoming, now: int)
    requires k.role.Tiered?
    ensures Controls(Upserted(rows, k, p, now)) == Controls(rows)
  { }

  lemma UpdateKeepsControls(rows: Rows, k: Key, s: Strategy, f: Pin -> Pin)
    requires k.role.Tiered?
    ensures Controls(Updated(rows, k, s, f)) == Controls(rows)
  { }

  lemma ConsumeKeepsControls(rows: Rows, k: Key, s: Strategy, now: int)
    requires k.role.Tiered?
    ensures Controls(Consumed(rows, k, s, now)) == Controls(rows)
  { }

  lemma ExpiryKeepsControls(rows: Rows, k: Key, m: Incoming, now: int, invalidate: bool, up: Weather)
    requires k.role.Tiered?
    ensures Controls(RowExpired(rows, k, m, now, invalidate, up)) == Controls(rows)
  {
    UpsertKeepsControls(rows, k, m, now);
    ConsumeKeepsControls(Upserted(rows, k, m, now), ContinuationKey(k), m.strategy, now);
  }

  lemma BothExpiryKeepsControls(rows: Rows, k: Key, m: Incoming, now: int, up: Weather)
    requires k.role.Tiered?
    ensures Controls(BothExpired(rows, k, m, now, up)) == Controls(rows)
  {
    var first := RowExpired(rows, k, m, now, true, up);
    ExpiryKeepsControls(rows, k, m, now, true, up);
    ExpiryKeepsControls(first, k.(role := WithSuffix(k.role, HmmHistory)), m, now, false, Later(up, 2));
  }

  lemma UpstreamKeepsControls(rows: Rows, k: Key, t: Turn, up: Weather)
    requires k.role.Tiered?
    ensures Controls(AfterUpstream(rows, k, t, up)) == Controls(rows)
  {
    UpdateKeepsControls(rows, k, t.strategy, (row: Pin) => row.(upstreamErrors := 0));
    UpdateKeepsControls(rows, k, t.strategy, (row: Pin) => row.(upstreamErrors := row.upstreamErrors + 1));
    ExpiryKeepsControls(UpstreamCounted(rows, k, t.strategy), k,
                        Marker(t.installation, UPSTREAM_STRIKES, t.strategy, t.now), t.now, true, Later(up, 1));
  }

  lemma OverloadKeepsControls(rows: Rows, k: Key, pinRole: Role, t: Turn, up: Weather)
    requires k.role.Tiered? && pinRole.Tiered?
    ensures Controls(AfterOverload(rows, k, pinRole, t, up)) == Controls(rows)
  {
    var counted := OverloadCounted(rows, k, t.strategy);
    UpdateKeepsControls(rows, k, t.strategy, (row: Pin) => row.(overloadErrors := 0));
    UpdateKeepsControls(rows, k, t.strategy, (row: Pin) => row.(overloadErrors := row.overloadErrors + 1));
    UpdateKeepsControls(counted, k, t.strategy,
                        (row: Pin) => row.(disabled := row.disabled + {t.provider}, overloadErrors := 0));
    BothExpiryKeepsControls(ProviderDisabled(counted, k, t.provider, t.strategy), k.(role := pinRole),
                            Marker(t.installation, PROVIDER_OVERLOADED, t.strategy, t.now), t.now, Later(up, 2));
  }

  lemma TurnKeepsControls(rows: Rows, k: Key, pinRole: Role, t: Turn, deadArm: bool, weather: nat -> Weather)
    requires k.role.Tiered? && pinRole.Tiered?
    ensures Controls(AfterTurn(rows, k, pinRole, t, deadArm, weather)) == Controls(rows)
  {
    var one := AfterUpstream(rows, k, t, weather(0));
    UpstreamKeepsControls(rows, k, t, weather(0));
    ExpiryKeepsControls(one, k, Marker(t.installation, DEAD_ARM, t.strategy, t.now), t.now, true, weather(1));
    OverloadKeepsControls(AfterDeadArm(one, k, t, deadArm, weather(1)), k, pinRole, t, weather(2));
  }

  lemma {:induction false} LegacyKeepsControls(rows: Rows, f: Session, tiers: seq<Tier>, inst: nat, s: Strategy,
                                               now: int, weather: nat -> Weather)
    ensures Controls(LegacyCleared(rows, f, tiers, inst, s, now, weather).rows) == Controls(rows)
  {
    if tiers != [] {
      var n := |tiers| - 1;
      LegacyKeepsControls(rows, f, tiers[..n], inst, s, now, weather);
      var before := LegacyCleared(rows, f, tiers[..n], inst, s, now, weather);
      ExpiryKeepsControls(before.rows, ThreadKey(f, tiers[n]), Marker(inst, UserUnforced, s, now), now, true,
                          Later(weather(n), 1));
    }
  }

  lemma {:induction false} ToggleKeepsControls(rows: Rows, keys: seq<Key>, s: Strategy, now: int, up: Weather)
    requires forall k | k in keys :: k.role.Tiered?
    ensures Controls(AllConsumed(rows, keys, s, now, up)) == Controls(rows)
  {
    if keys != [] {
      var n := |keys| - 1;
      assert keys[n] in keys && forall k | k in keys[..n] :: k in keys;
      ToggleKeepsControls(rows, keys[..n], s, now, up);
      ConsumeKeepsControls(AllConsumed(rows, keys[..n], s, now, up), keys[n], s, now);
    }
  }

  predicate NeverLapse(rows: Rows) {
    forall k | k in rows && k.role.ForceControl? :: rows[k].until == NEVER_EXPIRES
  }

  lemma SweepKeepsControls(rows: Rows, now: int)
    requires NeverLapse(rows) && now < NEVER_EXPIRES
    ensures Controls(Swept(rows, now)) == Controls(rows)
  { }

  lemma LoopKeepsControls(rows: Rows, events: seq<Event>, t: LoopTurn, recorded: bool, up: Weather)
    requires t.key.role.Tiered?
    ensures Controls(AfterLoop(rows, events, t, recorded, up).rows) == Controls(rows)
  {
    hide Controls, Upserted;
    UpsertKeepsControls(rows, t.key, RescuePin(t), t.now);
  }

  lemma StruggleKeepsControls(rows: Rows, events: seq<Event>, t: StruggleTurn, recorded: bool, up: Weather)
    requires t.key.role.Tiered?
    ensures Controls(AfterStruggle(rows, events, t, recorded, up).rows) == Controls(rows)
  {
    hide Controls, Upserted;
    if Dispatchable(t) { UpsertKeepsControls(rows, t.key, MovePin(t), t.now); }
  }

  /** No handler but setting and clearing touches a control row. */
  lemma OthersKeepControls(st: State, s: Step)
    requires Possible(s) && NeverLapse(st.rows) && !s.SetForce? && !s.ClearForce?
    ensures Controls(Next(st, s).rows) == Controls(st.rows)
  {
    hide Controls, AfterLoop, AfterStruggle, AfterTurn, LegacyCleared, BothExpired, RowExpired, AllConsumed;
    match s
    case ClearLegacy(f, inst, strategy, now, weather) =>
      LegacyKeepsControls(st.rows, f, CLEAR_TIERS, inst, strategy, now, weather);
    case Loops(t, recorded, up) => LoopKeepsControls(st.rows, st.loops, t, recorded, up);
    case Struggles(t, recorded, up) => StruggleKeepsControls(st.rows, st.struggles, t, recorded, up);
    case Finishes(k, pinRole, turn, deadArm, weather) => TurnKeepsControls(st.rows, k, pinRole, turn, deadArm, weather);
    case Degenerates(k, turn, up) =>
      ExpiryKeepsControls(st.rows, k, Marker(turn.installation, DEGENERATE, turn.strategy, turn.now), turn.now, true,
                          up);
    case Breaks(k, marker, now, up) => BothExpiryKeepsControls(st.rows, k, marker, now, up);
    case Expires(k, marker, now, up) => ExpiryKeepsControls(st.rows, k, marker, now, true, up);
    case Grants(k, inst, strategy, now, up) =>
      if k in st.rows {
        UpsertKeepsControls(st.rows, ContinuationKey(k), ContinuationOf(st.rows[k], inst, strategy, now), now);
      }
    case Takes(k, strategy, now, ok) => ConsumeKeepsControls(st.rows, ContinuationKey(k), strategy, now);
    case Writes(k, pin, now, ok) => UpsertKeepsControls(st.rows, k, pin, now);
    case Records(k, usage, ok) => UpdateKeepsControls(st.rows, k, usage.strategy, WithUsage(usage));
    case Toggles(session, strategy, now, up) => ToggleKeepsControls(st.rows, StateKeys(session), strategy, now, up);
    case Sweeps(now) => SweepKeepsControls(st.rows, now);
  }

  // The user's standing choice for a session.
  datatype Choice = NoChoice | Chose(model: string, provider: string) | Undid

  // A set or clear that reached the store and reported no error.
  function ChoiceBy(st: State, s: Step, f: Session, before: Choice): Choice
    requires WellRoled(s)
  {
    match s
    case SetForce(g, inst, model, provider, now, up) =>
      if g == f && inst != 0 && !ControlWritten(st.rows, g, ForcedRow(inst, model, provider), now, up).err
        then Chose(model, provider)
      else before
    case ClearForce(g, inst, now, up) =>
      if g == f && inst != 0 && !ControlWritten(st.rows, g, ClearedRow(inst), now, up).err then Undid else before
    case _ => before
  }

  // The last successful set or clear of the run.
  function Standing(steps: seq<Step>, f: Session): Choice
    requires AllPossible(steps)
  {
    if steps == [] then NoChoice
    else
      var before := steps[..|steps| - 1];
      ChoiceBy(Run(before), steps[|steps| - 1], f, Standing(before, f))
  }

  // The control row says what the user last chose.
  predicate Holds(rows: Rows, f: Session, c: Choice) {
    var k := ControlKey(f);
    match c
    case NoChoice => k !in rows
    case Chose(m, p) => k in rows && rows[k].reason == UserForced(false) && rows[k].model == m && rows[k].provider == p
    case Undid => k in rows && rows[k].reason.UserUnforced?
  }

  lemma SameControlsHold(a: Rows, b: Rows, f: Session, c: Choice)
    requires Controls(a) == Controls(b) && Holds(a, f, c)
    ensures Holds(b, f, c)
    ensures NeverLapse(a) ==> NeverLapse(b)
  {
    assert ControlKey(f) in a <==> ControlKey(f) in Controls(a);
    assert ControlKey(f) in b <==> ControlKey(f) in Controls(b);
    assert forall k | k in b && k.role.ForceControl? ::
        k in Controls(b) && Controls(b)[k] == b[k] && a[k] == Controls(a)[k];
  }

  lemma PreserveHolds(rows: Rows, g: Session, next: string, up: Weather, f: Session, c: Choice)
    requires Holds(rows, f, c) && NeverLapse(rows)
    ensures Holds(Preserve(rows, g, next, up).rows, f, c) && NeverLapse(Preserve(rows, g, next, up).rows)
  { }

  lemma WriteHolds(rows: Rows, g: Session, p: Incoming, now: int, up: Weather, f: Session, c: Choice)
    requires Holds(rows, f, c) && NeverLapse(rows) && p.until == NEVER_EXPIRES
    requires p.reason == UserForced(false) || p.reason.UserUnforced?
    ensures var after := ControlWritten(rows, g, p, now, up);
            && NeverLapse(after.rows)
            && (if g == f && p.installation != 0 && !after.err
                then Holds(after.rows, f, if p.reason.UserUnforced? then Undid else Chose(p.model, p.provider))
                else Holds(after.rows, f, c))
  {
    PreserveHolds(rows, g, p.model, up, f, c);
  }

  lemma {:induction false} ChoiceIsKept(steps: seq<Step>, f: Session)
    requires AllPossible(steps)
    ensures Holds(Run(steps).rows, f, Standing(steps, f)) && NeverLapse(Run(steps).rows)
  {
    if steps != [] {
      var before, s := steps[..|steps| - 1], steps[|steps| - 1];
      ChoiceIsKept(before, f);
      var st := Run(before);
      assert Possible(s);
      match s
      case SetForce(g, inst, model, provider, now, up) =>
        WriteHolds(st.rows, g, ForcedRow(inst, model, provider), now, up, f, Standing(before, f));
      case ClearForce(g, inst, now, up) =>
        WriteHolds(st.rows, g, ClearedRow(inst), now, up, f, Standing(before, f));
      case _ =>
        OthersKeepControls(st, s);
        SameControlsHold(st.rows, Next(st, s).rows, f, Standing(before, f));
    }
  }

  /** Over any run, with any store call failing, loading the force choice yields the model of
      the last successful set not followed by a successful clear, and nothing otherwise. */
  lemma LoadYieldsTheStandingChoice(steps: seq<Step>, f: Session, now: int)
    requires AllPossible(steps) && now < NEVER_EXPIRES
    ensures var r := Load(Run(steps).rows, f, now, true);
            match Standing(steps, f)
            case NoChoice => r == NOTHING_LOADED
            case Undid => r == Loaded(None, true)
            case Chose(m, p) =>
              if m == "" || p == "" then r == NOTHING_LOADED
              else r.active.Some? && !r.cleared && r.active.value.model == m && r.active.value.provider == p
  {
    ChoiceIsKept(steps, f);
  }

  /** So a session under a standing force is never moved by an escalation, at any point of
      any run: a loop or struggle turn it rules leaves the pin table as it finds it. */
  lemma StandingForceBlocksEscalation(steps: seq<Step>, s: Step, f: Session)
    requires AllPossible(steps) && Possible(s)
    requires Standing(steps, f).Chose? && Standing(steps, f).model != "" && Standing(steps, f).provider != ""
    requires (s.Loops? && s.loop.force == Some(f) && s.loop.pinsWired && s.loop.now < NEVER_EXPIRES)
          || (s.Struggles? && s.struggle.force == Some(f) && s.struggle.now < NEVER_EXPIRES)
    requires s.up(1)
    ensures Next(Run(steps), s).rows == Run(steps).rows
  {
    var st := Run(steps);
    if s.Loops? {
      LoadYieldsTheStandingChoice(steps, f, s.loop.now);
      LoopLeavesForcedAlone(st.rows, st.loops, s.loop, s.recorded, s.up);
    } else {
      LoadYieldsTheStandingChoice(steps, f, s.struggle.now);
      StruggleLeavesForcedAlone(st.rows, st.struggles, s.struggle, s.recorded, s.up);
    }
  }

  // ------------------------------------------------------------------ one event each ----

  // Every escalation turn of the run read its event count.
  predicate CountsRead(steps: seq<Step>) {
    forall i | 0 <= i < |steps| :: (steps[i].Loops? || steps[i].Struggles?) ==> steps[i].up(2)
  }

  lemma CountOfGrown(events: seq<Event>, e: Event, k: Key)
    ensures CountOf(events + [e], k) == CountOf(events, k) + if e.key == k then 1 else 0
  {
    assert (events + [e])[..|events|] == events;
  }

  // What a turn does to an event table that holds at most one event of k.
  lemma OneMoreRecorded(events: seq<Event>, after: seq<Event>, own: Key, k: Key)
    requires after == events || exists e :: after == events + [e] && e.key == own
    requires CountOf(events, own) > 0 ==> after == events
    requires CountOf(events, k) <= 1
    ensures CountOf(after, k) <= 1
  {
    if after != events {
      var e :| after == events + [e] && e.key == own;
      CountOfGrown(events, e, k);
    }
  }

  lemma OneMoreEvent(st: State, s: Step, k: Key)
    requires WellRoled(s) && ((s.Loops? || s.Struggles?) ==> s.up(2))
    requires CountOf(st.loops, k) <= 1 && CountOf(st.struggles, k) <= 1
    ensures CountOf(Next(st, s).loops, k) <= 1 && CountOf(Next(st, s).struggles, k) <= 1
  {
    hide AfterLoop, AfterStruggle, CountOf, Landed;
    match s
    case Loops(t, recorded, up) =>
      LoopPinsBeforeItRecords(st.rows, st.loops, t, recorded, up);
      LoopBudget(st.rows, st.loops, t, recorded, up);
      OneMoreRecorded(st.loops, AfterLoop(st.rows, st.loops, t, recorded, up).events, t.key, k);
    case Struggles(t, recorded, up) =>
      StrugglePinsBeforeItRecords(st.rows, st.struggles, t, recorded, up);
      StruggleBudget(st.rows, st.struggles, t, recorded, up);
      OneMoreRecorded(st.struggles, AfterStruggle(st.rows, st.struggles, t, recorded, up).events, t.key, k);
    case _ =>
  }

  /** While the count reads succeed and requests run one at a time, each session and role
      gets at most one loop event and one struggle event, whatever writes fail. */
  lemma {:induction false} OneEventEach(steps: seq<Step>, k: Key)
    requires AllPossible(steps) && CountsRead(steps)
    ensures CountOf(Run(steps).loops, k) <= 1 && CountOf(Run(steps).struggles, k) <= 1
  {
    if steps != [] {
      var before, s := steps[..|steps| - 1], steps[|steps| - 1];
      OneEventEach(before, k);
      assert Possible(s);
      OneMoreEvent(Run(before), s, k);
    }
  }

  predicate Recorded(st: State, e: Event) { e in st.loops || e in st.struggles }

  // Step n recorded e, and left its pin in place.
  predicate LandedAt(steps: seq<Step>, e: Event, n: nat)
    requires AllPossible(steps) && n < |steps|
  {
    !Recorded(Run(steps[..n]), e) && Recorded(Run(steps[..n + 1]), e) && Landed(Run(steps[..n + 1]).rows, e)
  }

  lemma StepLands(st: State, s: Step, e: Event)
    requires WellRoled(s) && Moves(e.action) && Recorded(Next(st, s), e) && !Recorded(st, e)
    ensures Landed(Next(st, s).rows, e)
  {
    match s
    case Loops(t, recorded, up) => LoopPinsBeforeItRecords(st.rows, st.loops, t, recorded, up);
    case Struggles(t, recorded, up) => StrugglePinsBeforeItRecords(st.rows, st.struggles, t, recorded, up);
    case _ =>
  }

  /** Every recorded move was preceded by its pin: at the step that recorded it, the pin
      table holds the recorded target under the escalation's reason. */
  lemma {:induction false} EveryMoveLanded(steps: seq<Step>, e: Event)
    requires AllPossible(steps) && Moves(e.action) && Recorded(Run(steps), e)
    ensures exists n :: 0 <= n < |steps| && LandedAt(steps, e, n)
  {
    var n := |steps| - 1;
    if steps != [] {
      assert steps[..n + 1] == steps;
      if Recorded(Run(steps[..n]), e) {
        EveryMoveLanded(steps[..n], e);
        var m :| 0 <= m < n && LandedAt(steps[..n], e, m);
        assert steps[..n][..m + 1] == steps[..m + 1] && steps[..n][..m] == steps[..m];
        assert LandedAt(steps, e, m);
      } else {
        assert steps[..n + 1][..n] == steps[..n];
        StepLands(Run(steps[..n]), steps[n], e);
        assert LandedAt(steps, e, n);
      }
    }
  }

  // ------------------------------------------------------------ one-shot conservation ----

  // The grant that lands on k's continuation, and the take that gets it.
  predicate LandsGrant(st: State, s: Step, k: Key) {
    s.Grants? && s.key == k && s.installation != 0 && s.up(0) && s.up(1) && Grantable(st.rows, k, s.strategy, s.now)
  }

  predicate Gets(st: State, s: Step, k: Key)
    requires k.role.Tiered?
  {
    s.Takes? && s.key == k && s.ok && Consumable(st.rows, ContinuationKey(k), s.strategy, s.now)
  }

  function GrantsLanded(steps: seq<Step>, k: Key): nat
    requires AllPossible(steps)
  {
    if steps == [] then 0
    else
      var before := steps[..|steps| - 1];
      GrantsLanded(before, k) + if LandsGrant(Run(before), steps[|steps| - 1], k) then 1 else 0
  }

  function TakesServed(steps: seq<Step>, k: Key): nat
    requires AllPossible(steps) && k.role.Tiered?
  {
    if steps == [] then 0
    else
      var before := steps[..|steps| - 1];
      TakesServed(before, k) + if Gets(Run(before), steps[|steps| - 1], k) then 1 else 0
  }

  // Nothing appears at c.
  predicate NoNew(a: Rows, b: Rows, c: Key) { c in b ==> c in a }

  lemma ExpiryAddsNothing(rows: Rows, k: Key, m: Incoming, now: int, invalidate: bool, up: Weather, c: Key)
    requires k.role.Tiered? && c != k
    ensures NoNew(rows, RowExpired(rows, k, m, now, invalidate, up), c)
  { }

  lemma BothExpiryAddsNothing(rows: Rows, k: Key, m: Incoming, now: int, up: Weather, c: Key)
    requires IsThread(k.role) && IsOneShot(c.role)
    ensures NoNew(rows, BothExpired(rows, k, m, now, up), c)
  {
    var h := k.(role := WithSuffix(k.role, HmmHistory));
    assert h.role.suffixes == [HmmHistory];
    assert c.role.suffixes[0] == CommandNext;
    ExpiryAddsNothing(rows, k, m, now, true, up, c);
    ExpiryAddsNothing(RowExpired(rows, k, m, now, true, up), h, m, now, false, Later(up, 2), c);
  }

  lemma TurnAddsNothing(rows: Rows, k: Key, pinRole: Role, t: Turn, deadArm: bool, weather: nat -> Weather, c: Key)
    requires IsSticky(k.role) && IsThread(pinRole) && IsOneShot(c.role)
    ensures NoNew(rows, AfterTurn(rows, k, pinRole, t, deadArm, weather), c)
  {
    assert c.role.suffixes[0] == CommandNext && c != k;
    var one := AfterUpstream(rows, k, t, weather(0));
    ExpiryAddsNothing(UpstreamCounted(rows, k, t.strategy), k,
                      Marker(t.installation, UPSTREAM_STRIKES, t.strategy, t.now), t.now,
                      true, Later(weather(0), 1), c);
    assert NoNew(rows, one, c);
    var two := AfterDeadArm(one, k, t, deadArm, weather(1));
    ExpiryAddsNothing(one, k, Marker(t.installation, DEAD_ARM, t.strategy, t.now), t.now, true, weather(1), c);
    assert NoNew(one, two, c);
    var struck := ProviderDisabled(OverloadCounted(two, k, t.strategy), k, t.provider, t.strategy);
    BothExpiryAddsNothing(struck, k.(role := pinRole), Marker(t.installation, PROVIDER_OVERLOADED, t.strategy, t.now),
                          t.now, Later(weather(2), 2), c);
    assert NoNew(two, AfterOverload(two, k, pinRole, t, weather(2)), c);
  }

  lemma {:induction false} LegacyAddsNothing(rows: Rows, f: Session, tiers: seq<Tier>, inst: nat, s: Strategy, now: int,
                                             weather: nat -> Weather, c: Key)
    requires IsOneShot(c.role)
    ensures NoNew(rows, LegacyCleared(rows, f, tiers, inst, s, now, weather).rows, c)
  {
    if tiers != [] {
      var n := |tiers| - 1;
      LegacyAddsNothing(rows, f, tiers[..n], inst, s, now, weather, c);
      var before := LegacyCleared(rows, f, tiers[..n], inst, s, now, weather);
      assert c != ThreadKey(f, tiers[n]);
      ExpiryAddsNothing(before.rows, ThreadKey(f, tiers[n]), Marker(inst, UserUnforced, s, now), now, true,
                        Later(weather(n), 1), c);
    }
  }

  lemma ControlAddsNothing(rows: Rows, g: Session, p: Incoming, now: int, up: Weather, c: Key)
    requires c.role.Tiered?
    ensures NoNew(rows, ControlWritten(rows, g, p, now, up).rows, c)
  { }

  lemma {:induction false} ToggleAddsNothing(rows: Rows, keys: seq<Key>, s: Strategy, now: int, up: Weather, c: Key)
    ensures NoNew(rows, AllConsumed(rows, keys, s, now, up), c)
  {
    if keys != [] { ToggleAddsNothing(rows, keys[..|keys| - 1], s, now, up, c); }
  }

  lemma StepAddsNothing(st: State, s: Step, k: Key)
    requires Possible(s) && IsThread(k.role) && !LandsGrant(st, s, k)
    ensures NoNew(st.rows, Next(st, s).rows, ContinuationKey(k))
  {
    var c := ContinuationKey(k);
    assert c.role.suffixes == [CommandNext];
    match s
    case SetForce(g, inst, model, provider, now, up) =>
      ControlAddsNothing(st.rows, g, ForcedRow(inst, model, provider), now, up, c);
    case ClearForce(g, inst, now, up) => ControlAddsNothing(st.rows, g, ClearedRow(inst), now, up, c);
    case ClearLegacy(f, inst, strategy, now, weather) =>
      LegacyAddsNothing(st.rows, f, CLEAR_TIERS, inst, strategy, now, weather, c);
    case Loops(t, recorded, up) => assert t.key != c;
    case Struggles(t, recorded, up) => assert t.key != c;
    case Finishes(j, pinRole, turn, deadArm, weather) =>
      TurnAddsNothing(st.rows, j, pinRole, turn, deadArm, weather, c);
    case Degenerates(j, turn, up) =>
      assert c.role.suffixes[0] == CommandNext && j != c;
      ExpiryAddsNothing(st.rows, j, Marker(turn.installation, DEGENERATE, turn.strategy, turn.now), turn.now, true, up,
                        c);
    case Breaks(j, marker, now, up) => BothExpiryAddsNothing(st.rows, j, marker, now, up, c);
    case Expires(j, marker, now, up) => ExpiryAddsNothing(st.rows, j, marker, now, true, up, c);
    case Grants(j, inst, strategy, now, up) => OtherContinuation(j, k);
    case Takes(j, strategy, now, ok) =>
    case Writes(j, pin, now, ok) => assert c.role.suffixes[0] == CommandNext && j != c;
    case Records(j, usage, ok) =>
    case Toggles(session, strategy, now, up) => ToggleAddsNothing(st.rows, StateKeys(session), strategy, now, up, c);
    case Sweeps(now) =>
  }

  lemma OtherContinuation(j: Key, k: Key)
    requires IsThread(j.role) && IsThread(k.role)
    ensures ContinuationKey(j) == ContinuationKey(k) ==> j == k
  { }

  /** Conservation: over any run, the turns served from a session's one-shot continuations,
      plus the one still pending, are never more than the grants that landed. */
  lemma {:induction false} OneTurnPerGrant(steps: seq<Step>, k: Key)
    requires AllPossible(steps) && IsThread(k.role)
    ensures TakesServed(steps, k) + (if ContinuationKey(k) in Run(steps).rows then 1 else 0) <= GrantsLanded(steps, k)
  {
    if steps != [] {
      var before, s := steps[..|steps| - 1], steps[|steps| - 1];
      OneTurnPerGrant(before, k);
      assert Possible(s);
      if !LandsGrant(Run(before), s, k) { StepAddsNothing(Run(before), s, k); }
    }
  }
}
