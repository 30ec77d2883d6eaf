/** The user's force-model choice, kept in a control row of its own
    (internal/proxy/force_model.go), and the one-shot continuation that carries an automatic
    pin over a slash command (command_continuation.go).

    up(i) says whether the i-th store call of a handler succeeds. */
module ForceModel {
  import opened Wrappers
  import opened PinStore
  import opened PinEviction

  // The table after a handler, and whether the handler reported an error.
  datatype Effect = Effect(rows: Rows, err: bool)

  function ControlKey(s: Session): Key { Key(s, ForceControl) }

  // ------------------------------------------------------------------ the control row ----

  datatype Loaded = Loaded(active: Option<Pin>, cleared: bool)

  const NOTHING_LOADED := Loaded(None, false)

  function Load(rows: Rows, session: Session, now: int, up: bool): Loaded {
    var k := ControlKey(session);
    if !up || k !in rows then NOTHING_LOADED
    else if rows[k].reason.UserUnforced? then Loaded(None, true)
    else if rows[k].until <= now || !rows[k].reason.UserForced? || rows[k].model == "" || rows[k].provider == ""
      then NOTHING_LOADED
    else Loaded(Some(rows[k]), false)
  }

  /** loadForceModelSessionPin; wired is false for a service without a pin store. */
  method LoadForceModelSessionPin(store: SessionPins, wired: bool, session: Session, now: int, up: bool)
    returns (r: Loaded)
    ensures r == Load(store.rows, session, now, wired && up)
  {
    if !wired {
      return NOTHING_LOADED;
    }
    var pin, err := store.Get(ControlKey(session), up);
    if err {
      return NOTHING_LOADED;
    }
    if pin.Some? && pin.value.reason.UserUnforced? {
      return Loaded(None, true);
    }
    if pin.None? || pin.value.until <= now || !pin.value.reason.UserForced? || pin.value.model == ""
      || pin.value.provider == "" {
      return NOTHING_LOADED;
    }
    return Loaded(pin, false);
  }

  function HistoryOf(p: Pin): Usage {
    Usage(p.strategy, 0, p.model, p.provider, p.lastServed, p.everSwitched)
  }

  function Preserve(rows: Rows, session: Session, next: string, up: Weather): Effect {
    var k := ControlKey(session);
    if !up(0) then Effect(rows, true)
    else if k !in rows || !rows[k].reason.UserForced? || rows[k].model == "" || rows[k].model == next
      then Effect(rows, false)
    else if up(1) then Effect(UsageWritten(rows, k, HistoryOf(rows[k])), false)
    else Effect(rows, true)
  }

  // preserveForceModelControlHistory: what the outgoing choice served becomes history.
  method PreserveForceModelControlHistory(store: SessionPins, session: Session, next: string, up: Weather)
    returns (err: bool)
    modifies store
    ensures Effect(store.rows, err) == Preserve(old(store.rows), session, next, up)
  {
    var existing, failed := store.Get(ControlKey(session), up(0));
    if failed {
      return true;
    }
    if existing.None? || !existing.value.reason.UserForced? || existing.value.model == ""
      || existing.value.model == next {
      return false;
    }
    err := store.UpdateUsage(ControlKey(session), HistoryOf(existing.value), up(1));
  }

  /** Exactly when a control row is read as the user's choice: an unexpired forced row that names
      a model and its provider; an undone choice is told from none, whenever it was undone. */
  lemma LoadedExactlyWhen(rows: Rows, session: Session, now: int, up: bool)
    ensures var r, k := Load(rows, session, now, up), ControlKey(session);
            && (r.active.Some? <==>
                  && up && k in rows && rows[k].reason.UserForced? && now < rows[k].until
                  && rows[k].model != "" && rows[k].provider != "")
            && (r.active.Some? ==> r.active.value == rows[k])
            && (r.cleared <==> up && k in rows && rows[k].reason.UserUnforced?)
  { }

  function ForcedRow(installation: nat, model: string, provider: string): Incoming {
    Incoming(installation, provider, model, "", "", UserForced(false), Unset, "", 1, NEVER_EXPIRES)
  }

  function ClearedRow(installation: nat): Incoming {
    Incoming(installation, "", "", "", "", UserUnforced, Unset, "", 1, NEVER_EXPIRES)
  }

  function ControlWritten(rows: Rows, session: Session, p: Incoming, now: int, up: Weather): Effect {
    if p.installation == 0 then Effect(rows, false)
    else
      var kept := Preserve(rows, session, p.model, up);
      if kept.err then kept
      else if up(2) then Effect(Upserted(kept.rows, ControlKey(session), p, now), false)
      else Effect(kept.rows, true)
  }

  lemma ControlRowsCountFromOne(installation: nat, model: string, provider: string)
    ensures ForcedRow(installation, model, provider).turnCount == ClearedRow(installation).turnCount == 1
    ensures ForcedRow(installation, model, provider).strategy.Unset? && ClearedRow(installation).strategy.Unset?
  { }

  // The control row holds a choice another model is to take the place of.
  predicate Outgoing(rows: Rows, session: Session, next: string) {
    var k := ControlKey(session);
    k in rows && rows[k].reason.UserForced? && rows[k].model != "" && rows[k].model != next
  }

  /** What a choice leaves behind when another model, or none, takes its place: it is the last
      served model of the new row, and a switch is remembered once two served models differ.
      Any other write keeps the history as it was.  A call that fails on the way is reported,
      and the row is written exactly when none did. */
  lemma OutgoingChoiceBecomesHistory(rows: Rows, session: Session, p: Incoming, now: int, up: Weather)
    requires p.strategy.Unset?
    ensures p.installation == 0 ==> ControlWritten(rows, session, p, now, up) == Effect(rows, false)
    ensures p.installation != 0 ==>
            var after, k := ControlWritten(rows, session, p, now, up), ControlKey(session);
            && (after.err <==> !up(0) || (Outgoing(rows, session, p.model) && !up(1)) || !up(2))
            && (!after.err ==>
                  k in after.rows && after.rows[k].model == p.model && after.rows[k].provider == p.provider
                  && after.rows[k].reason == p.reason && after.rows[k].until == p.until
                  && (k !in rows ==> after.rows[k].turnCount == p.turnCount))
            && (!after.err && k in rows && rows[k].strategy.Unset? ==>
                  var was, row := rows[k], after.rows[k];
                  if Outgoing(rows, session, p.model) then
                    && row.lastServed == was.model && row.lastOutput == 0
                    && (row.everSwitched <==> was.everSwitched || (was.lastServed != "" && was.lastServed != was.model))
                  else row.lastServed == was.lastServed && row.everSwitched == was.everSwitched)
            && (!up(0) || (Outgoing(rows, session, p.model) && !up(1)) ==> after.rows == rows)
  { }

  /** setForceModelSessionPin. */
  method SetForceModelSessionPin(store: SessionPins, session: Session, installation: nat, model: string,
                                 provider: string, now: int, up: Weather) returns (err: bool)
    modifies store
    ensures Effect(store.rows, err) == ControlWritten(old(store.rows), session,
                                                      ForcedRow(installation, model, provider), now, up)
  {
    if installation == 0 {
      return false;
    }
    err := PreserveForceModelControlHistory(store, session, model, up);
    if err {
      return;
    }
    err := store.Upsert(ControlKey(session), ForcedRow(installation, model, provider), now, up(2));
  }

  /** clearForceModelSessionPin. */
  method ClearForceModelSessionPin(store: SessionPins, session: Session, installation: nat, now: int, up: Weather)
    returns (err: bool)
    modifies store
    ensures Effect(store.rows, err) == ControlWritten(old(store.rows), session, ClearedRow(installation), now, up)
  {
    if installation == 0 {
      return false;
    }
    err := PreserveForceModelControlHistory(store, session, "", up);
    if err {
      return;
    }
    err := store.Upsert(ControlKey(session), ClearedRow(installation), now, up(2));
  }

  // ---------------------------------------------------------------- legacy thread pins ----

  const CLEAR_TIERS := [TierUnknown, TierLow, TierMid, TierHigh]

  function ThreadKey(session: Session, t: Tier): Key { Key(session, Tiered(t, [])) }

  // One role's turn of the clearing loop.
  function OneLegacyCleared(rows: Rows, k: Key, installation: nat, s: Strategy, now: int, up: Weather): Effect
    requires k.role.Tiered?
  {
    if !up(0) then Effect(rows, true)
    else if k !in rows || !rows[k].reason.UserForced? then Effect(rows, false)
    else
      Effect(RowExpired(rows, k, Marker(installation, UserUnforced, s, now), now, true, Later(up, 1)),
             !up(1) || !up(2))
  }

  function LegacyCleared(rows: Rows, session: Session, tiers: seq<Tier>, installation: nat, s: Strategy, now: int,
                         up: nat -> Weather): Effect
  {
    if tiers == [] then Effect(rows, false)
    else
      var before := LegacyCleared(rows, session, tiers[..|tiers| - 1], installation, s, now, up);
      if before.err then before
      else OneLegacyCleared(before.rows, ThreadKey(session, tiers[|tiers| - 1]), installation, s, now, up(|tiers| - 1))
  }

  lemma {:induction false} LegacyErrorSticks(rows: Rows, session: Session, tiers: seq<Tier>, i: nat, installation: nat,
                                             s: Strategy, now: int, up: nat -> Weather)
    requires i <= |tiers| && LegacyCleared(rows, session, tiers[..i], installation, s, now, up).err
    ensures LegacyCleared(rows, session, tiers, installation, s, now, up)
         == LegacyCleared(rows, session, tiers[..i], installation, s, now, up)
    decreases |tiers|
  {
    if i == |tiers| {
      assert tiers[..i] == tiers;
    } else {
      assert tiers[..|tiers| - 1][..i] == tiers[..i];
      LegacyErrorSticks(rows, session, tiers[..|tiers| - 1], i, installation, s, now, up);
    }
  }

  // What clearing one role does to the others' rows, and to any row that is not forced.
  lemma OneLegacyClears(rows: Rows, k: Key, installation: nat, s: Strategy, now: int, up: Weather, j: Key)
    requires k.role.Tiered? && k.role.suffixes == []
    requires j.role.Tiered? && j.role.suffixes == []
    ensures var after := OneLegacyCleared(rows, k, installation, s, now, up);
            && (!after.err && k in after.rows ==> !after.rows[k].reason.UserForced?)
            && (j in after.rows && after.rows[j].reason.UserForced? ==> j in rows && after.rows[j] == rows[j])
            && (j in rows && !rows[j].reason.UserForced? ==> j in after.rows && after.rows[j] == rows[j])
            && (after.err <==> !up(0) || (k in rows && rows[k].reason.UserForced? && (!up(1) || !up(2))))
            && (!after.err && k in rows && rows[k].reason.UserForced? ==>
                  ExpiredFor(after.rows, k, UserUnforced, now) && NoContinuation(after.rows, k, s, now))
            && (up(0) && (k !in rows || !rows[k].reason.UserForced?) ==> after.rows == rows)
  {
    ContinuationIsAnotherRow(k);
    ExpiryTakesTheContinuation(rows, k, installation, UserUnforced, s, now, Later(up, 1));
    assert k.(role := WithSuffix(k.role, CommandNext)).role.suffixes != [];
  }

  lemma {:induction false} LegacyClears(rows: Rows, session: Session, tiers: seq<Tier>, installation: nat, s: Strategy,
                                        now: int, up: nat -> Weather, t: Tier)
    ensures var after, j := LegacyCleared(rows, session, tiers, installation, s, now, up), ThreadKey(session, t);
            && (!after.err && t in tiers && j in after.rows ==> !after.rows[j].reason.UserForced?)
            && (j in after.rows && after.rows[j].reason.UserForced? ==> j in rows && after.rows[j] == rows[j])
            && (j in rows && !rows[j].reason.UserForced? ==> j in after.rows && after.rows[j] == rows[j])
  {
    if tiers != [] {
      var n := |tiers| - 1;
      LegacyClears(rows, session, tiers[..n], installation, s, now, up, t);
      var before := LegacyCleared(rows, session, tiers[..n], installation, s, now, up);
      OneLegacyClears(before.rows, ThreadKey(session, tiers[n]), installation, s, now, up(n), ThreadKey(session, t));
      assert t in tiers ==> t in tiers[..n] || t == tiers[n];
    }
  }

  lemma {:induction false} LegacyFails(rows: Rows, session: Session, tiers: seq<Tier>, installation: nat, s: Strategy,
                                       now: int, up: nat -> Weather)
    requires forall i, j | 0 <= i < |tiers| :: up(i)(j)
    ensures !LegacyCleared(rows, session, tiers, installation, s, now, up).err
  {
    if tiers != [] {
      var n := |tiers| - 1;
      LegacyFails(rows, session, tiers[..n], installation, s, now, up);
      assert up(n)(0) && up(n)(1) && up(n)(2);
    }
  }

  /** Once the clearing reports no error, as it never does while the store answers, no thread
      row of the session, of any tier, is left user-forced; and whatever it reports, a row that
      was not forced is as it was. */
  lemma NoThreadStaysForced(rows: Rows, session: Session, installation: nat, s: Strategy, now: int, up: nat -> Weather,
                            t: Tier)
    ensures var after, k := LegacyCleared(rows, session, CLEAR_TIERS, installation, s, now, up), ThreadKey(session, t);
            && (!after.err && k in after.rows ==> !after.rows[k].reason.UserForced?)
            && (k in rows && !rows[k].reason.UserForced? ==> k in after.rows && after.rows[k] == rows[k])
            && ((forall i, j :: up(i)(j)) ==> !after.err)
  {
    LegacyClears(rows, session, CLEAR_TIERS, installation, s, now, up, t);
    assert CLEAR_TIERS[0] == TierUnknown && CLEAR_TIERS[1] == TierLow && CLEAR_TIERS[2] == TierMid
        && CLEAR_TIERS[3] == TierHigh;
    if forall i, j :: up(i)(j) {
      LegacyFails(rows, session, CLEAR_TIERS, installation, s, now, up);
    }
  }

  // The body of the clearing loop.
  method ClearOneLegacyPin(store: SessionPins, k: Key, installation: nat, s: Strategy, now: int, up: Weather)
    returns (failed: bool)
    requires k.role.Tiered?
    modifies store
    ensures Effect(store.rows, failed) == OneLegacyCleared(old(store.rows), k, installation, s, now, up)
  {
    var pin, err := store.Get(k, up(0));
    if err {
      return true;
    }
    if pin.Some? && pin.value.reason.UserForced? {
      failed := ExpireSessionPinRow(store, k, Marker(installation, UserUnforced, s, now), now, true, Later(up, 1));
      return;
    }
    return false;
  }

  /** clearLegacyForceModelPins: expires the thread's own forced pins, role by role, and
      stops at the first failure. */
  method ClearLegacyForceModelPins(store: SessionPins, session: Session, installation: nat, s: Strategy, now: int,
                                   up: nat -> Weather)
    returns (err: bool)
    modifies store
    ensures Effect(store.rows, err)
         == if installation == 0 then Effect(old(store.rows), false)
            else LegacyCleared(old(store.rows), session, CLEAR_TIERS, installation, s, now, up)
  {
    if installation == 0 {
      return false;
    }
    hide OneLegacyCleared;
    ghost var was := store.rows;
    var tiers := CLEAR_TIERS;
    for i := 0 to |tiers|
      invariant Effect(store.rows, false) == LegacyCleared(was, session, tiers[..i], installation, s, now, up)
    {
      assert tiers[..i + 1][..i] == tiers[..i];
      var failed := ClearOneLegacyPin(store, ThreadKey(session, tiers[i]), installation, s, now, up(i));
      if failed {
        LegacyErrorSticks(was, session, tiers, i + 1, installation, s, now, up);
        return true;
      }
    }
    assert tiers[..|tiers|] == tiers;
    return false;
  }

  // ------------------------------------------------------------ one-shot continuations ----

  const MAXED_OUT := 8000
  const SESSION_TTL := 3600

  function ContinuationKey(k: Key): Key
    requires k.role.Tiered?
  {
    k.(role := WithSuffix(k.role, CommandNext))
  }

  // loadPin: the row may serve this turn.
  predicate Serves(rows: Rows, k: Key, s: Strategy, now: int) {
    k in rows && Effective(rows[k], s) && rows[k].until > now
  }

  // maxedOutServedModel names a model: the previous turn ran into the output cap.
  predicate MaxedOut(p: Pin) { p.lastOutput >= MAXED_OUT && (p.lastServed != "" || p.model != "") }

  predicate Grantable(rows: Rows, k: Key, s: Strategy, now: int) {
    && Serves(rows, k, s, now) && rows[k].model != "" && rows[k].provider != ""
    && !rows[k].reason.UserForced? && !MaxedOut(rows[k])
  }

  function ContinuationOf(p: Pin, installation: nat, s: Strategy, now: int): Incoming {
    Incoming(installation, p.provider, p.model, p.pairedProvider, p.pairedModel, p.reason, s, p.group, 1,
             now + SESSION_TTL)
  }

  function Granted(rows: Rows, k: Key, installation: nat, s: Strategy, now: int, up: Weather): Rows
    requires k.role.Tiered?
  {
    if installation != 0 && up(0) && Grantable(rows, k, s, now) && up(1)
    then Upserted(rows, ContinuationKey(k), ContinuationOf(rows[k], installation, s, now), now)
    else rows
  }

  /** grantPostCommandContinuation. */
  method GrantPostCommandContinuation(store: SessionPins, k: Key, installation: nat, s: Strategy, now: int, up: Weather)
    requires k.role.Tiered?
    modifies store
    ensures store.rows == Granted(old(store.rows), k, installation, s, now, up)
  {
    if installation == 0 {
      return;
    }
    var found, err := store.Get(k, up(0));
    if err || found.None? || !Effective(found.value, s) || found.value.until <= now {
      return;
    }
    var pin := found.value;
    if pin.model == "" || pin.provider == "" || pin.reason.UserForced? {
      return;
    }
    if MaxedOut(pin) {
      return;
    }
    var _ := store.Upsert(ContinuationKey(k), ContinuationOf(pin, installation, s, now), now, up(1));
  }

  /** consumePostCommandContinuation: what is taken is gone, and was the row. */
  method ConsumePostCommandContinuation(store: SessionPins, k: Key, s: Strategy, now: int, up: bool)
    returns (pin: Option<Pin>)
    requires k.role.Tiered?
    modifies store
    ensures store.rows == if up then Consumed(old(store.rows), ContinuationKey(k), s, now) else old(store.rows)
    ensures pin == if up && Consumable(old(store.rows), ContinuationKey(k), s, now)
                   then Some(old(store.rows)[ContinuationKey(k)]) else None
  {
    var found, err := store.Consume(ContinuationKey(k), s, now, up);
    if err {
      return None;
    }
    if found.Some? && !Effective(found.value, s) {
      return None;
    }
    return found;
  }

  /** Exactly when a continuation is granted, the store answering: the turn can be addressed,
      and the row serves a routed model of its own, not one the user forced, whose last output
      stayed under 8000 tokens; nothing else is touched. */
  lemma GrantedExactlyWhen(rows: Rows, k: Key, installation: nat, s: Strategy, now: int, up: Weather)
    requires k.role.Tiered?
    ensures var after, c := Granted(rows, k, installation, s, now, up), ContinuationKey(k);
            && (if && installation != 0 && up(0) && up(1) && k in rows
                   && (rows[k].reason.UserForced? || StrategyMatches(rows[k], s)) && rows[k].until > now
                   && rows[k].model != "" && rows[k].provider != "" && !rows[k].reason.UserForced?
                   && rows[k].lastOutput < 8000
                then c in after && after[c].until == now + 3600 && after[c].strategy == s
                     && after[c].installation == (if c in rows then rows[c].installation else installation)
                else after == rows)
            && forall j | j != c :: (j in after <==> j in rows) && (j in rows ==> after[j] == rows[j])
  { }

  /** A first continuation is a copy of the pin for one turn: its model and runner-up, its
      reason and policy group, and none of its history or strikes. */
  lemma FirstContinuationCopiesThePin(rows: Rows, k: Key, installation: nat, s: Strategy, now: int)
    requires k.role.Tiered? && installation != 0 && Grantable(rows, k, s, now) && ContinuationKey(k) !in rows
    ensures var row, p := Granted(rows, k, installation, s, now, Sunny())[ContinuationKey(k)], rows[k];
            && row.model == p.model && row.provider == p.provider
            && row.pairedModel == p.pairedModel && row.pairedProvider == p.pairedProvider
            && row.reason == p.reason && row.group == p.group && row.turnCount == 1 && row.firstAt == now
            && row.lastServed == "" && row.lastOutput == 0 && !row.everSwitched
            && row.upstreamErrors == 0 && row.overloadErrors == 0 && row.disabled == {}
  { }

  /** A granted continuation serves the pin it was granted from exactly once: until it
      expires, and not from then on, the next consume under that strategy returns its model and
      provider, and the one after that returns nothing. */
  lemma GrantIsTakenOnce(rows: Rows, k: Key, installation: nat, s: Strategy, now: int, later: int)
    requires k.role.Tiered? && installation != 0 && Grantable(rows, k, s, now)
    ensures var granted := Granted(rows, k, installation, s, now, Sunny());
            && (Consumable(granted, ContinuationKey(k), s, later) <==> later < now + 3600)
            && granted[ContinuationKey(k)].model == rows[k].model
                 && granted[ContinuationKey(k)].provider == rows[k].provider
            && granted[k] == rows[k]
            && !Consumable(Consumed(granted, ContinuationKey(k), s, later), ContinuationKey(k), s, later)
  {
    ContinuationIsAnotherRow(k);
  }
}
