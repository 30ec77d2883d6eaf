/** Moving a stuck session to another model: the loop rescue of
    internal/proxy/loop_detection.go and the struggle move of struggle_escalation.go.  Each
    pins first and records second, once per session and role.

    up(i) says whether the i-th store call of a handler succeeds. */
module Escalation {
  import opened Wrappers
  import opened PinStore
  import opened PinEviction
  import opened ForceModel

  datatype Action =
    | Escalated | Disabled | Forced | AutomaticRoutingDisabled | AlreadyStrong | Holdout
    | UpCluster | Sideways | NoTarget | NoEligibleArms

  // One durable event row.
  datatype Event = Event(key: Key, model: string, action: Action, target: string)

  function CountOf(events: seq<Event>, k: Key): nat {
    if events == [] then 0 else CountOf(events[..|events| - 1], k) + if events[|events| - 1].key == k then 1 else 0
  }

  // An event table; wired is false for a service that has none.
  class EventLog {
    const wired: bool
    var rows: seq<Event>

    constructor (wired: bool)
      ensures this.wired == wired && rows == []
    {
      this.wired := wired;
      rows := [];
    }

    method Count(k: Key, up: bool) returns (count: nat, err: bool)
      ensures err == !up
      ensures up ==> count == CountOf(rows, k)
    {
      if !up {
        return 0, true;
      }
      count := 0;
      for i := 0 to |rows|
        invariant count == CountOf(rows[..i], k)
      {
        assert rows[..i + 1][..i] == rows[..i];
        if rows[i].key == k {
          count := count + 1;
        }
      }
      assert rows[..|rows|] == rows;
      err := false;
    }

    method Insert(e: Event, up: bool) returns (err: bool)
      modifies this
      ensures err == !up
      ensures rows == if up then old(rows) + [e] else old(rows)
    {
      if up {
        rows := rows + [e];
      }
      err := !up;
    }
  }

  // DeterministicHoldout, given the first four bytes of the session key.
  predicate InHoldout(prefix: nat, pct: int) {
    if pct <= 0 then false else if pct >= 100 then true else prefix % 100 < pct
  }

  // The tables after a handler ran.
  datatype Tables = Tables(rows: Rows, events: seq<Event>)

  // -------------------------------------------------------------------- the loop rescue ----

  datatype LoopTurn = LoopTurn(
    key: Key,
    installation: nat,
    strategy: Strategy,
    now: int,
    routedModel: string,
    force: Option<Session>,       // the session whose force row rules this thread
    target: string,               // the rescue model
    enabled: bool,                // the kill switch is on
    withdrawn: bool,              // the target is out of automatic routing
    prefix: nat,
    holdoutPct: int,
    pinsWired: bool)

  // The thread's own pin, as far as this turn can see it.
  function Seen(rows: Rows, t: LoopTurn, up: Weather): Option<Pin> {
    if t.pinsWired && t.installation != 0 && up(0) && t.key in rows && Effective(rows[t.key], t.strategy)
    then Some(rows[t.key]) else None
  }

  function ForceSeen(rows: Rows, force: Option<Session>, now: int, up: bool): Option<Pin> {
    if force.Some? then Load(rows, force.value, now, up).active else None
  }

  predicate UserForcedTurn(rows: Rows, t: LoopTurn, up: Weather) {
    || (Seen(rows, t, up).Some? && Seen(rows, t, up).value.reason == UserForced(false))
    || ForceSeen(rows, t.force, t.now, t.pinsWired && up(1)).Some?
  }

  function LoopingModel(rows: Rows, t: LoopTurn, up: Weather): string {
    var forced, seen := ForceSeen(rows, t.force, t.now, t.pinsWired && up(1)), Seen(rows, t, up);
    if forced.Some? then forced.value.model
    else if seen.Some? && seen.value.model != "" then seen.value.model
    else t.routedModel
  }

  predicate LoopHoldout(t: LoopTurn, recorded: bool) {
    recorded && t.installation != 0 && InHoldout(t.prefix, t.holdoutPct)
  }

  function LoopAction(rows: Rows, t: LoopTurn, recorded: bool, up: Weather): Action {
    if !t.enabled then Disabled
    else if UserForcedTurn(rows, t, up) then Forced
    else if t.withdrawn then AutomaticRoutingDisabled
    else if LoopingModel(rows, t, up) == t.target then AlreadyStrong
    else if LoopHoldout(t, recorded) then Holdout
    else Escalated
  }

  // The turn goes no further: rescued before, or the session's one event is spent.
  predicate LoopSpent(rows: Rows, events: seq<Event>, t: LoopTurn, recorded: bool, up: Weather) {
    || (Seen(rows, t, up).Some? && Seen(rows, t, up).value.reason.LoopEscalated?)
    || (recorded && t.installation != 0 && up(2) && CountOf(events, t.key) > 0)
  }

  const AIAND := "aiand"

  function RescuePin(t: LoopTurn): Incoming {
    Incoming(t.installation, AIAND, t.target, "", "", LoopEscalated, t.strategy, "", 1, t.now + SESSION_TTL)
  }

  function LoopEvent(rows: Rows, t: LoopTurn, recorded: bool, up: Weather): Event {
    Event(t.key, LoopingModel(rows, t, up), LoopAction(rows, t, recorded, up), t.target)
  }

  function Recorded(events: seq<Event>, e: Event, recorded: bool, installation: nat, up: bool): seq<Event> {
    if recorded && installation != 0 && up then events + [e] else events
  }

  function AfterLoop(rows: Rows, events: seq<Event>, t: LoopTurn, recorded: bool, up: Weather): Tables {
    var e := LoopEvent(rows, t, recorded, up);
    if LoopSpent(rows, events, t, recorded, up) then Tables(rows, events)
    else if !e.action.Escalated? then Tables(rows, Recorded(events, e, recorded, t.installation, up(5)))
    else if !t.pinsWired || t.installation == 0 || !up(4) then Tables(rows, events)
    else Tables(Upserted(rows, t.key, RescuePin(t), t.now), Recorded(events, e, recorded, t.installation, up(5)))
  }

  // The reading half of handleLoopEscalation: what it knows when it decides.
  method ReadLoopState(store: SessionPins, t: LoopTurn, up: Weather)
    returns (rescued: bool, userForced: bool, loopingModel: string)
    ensures rescued <==> Seen(store.rows, t, up).Some? && Seen(store.rows, t, up).value.reason.LoopEscalated?
    ensures !rescued ==>
              userForced == UserForcedTurn(store.rows, t, up) && loopingModel == LoopingModel(store.rows, t, up)
  {
    rescued, userForced, loopingModel := false, false, t.routedModel;
    if t.pinsWired && t.installation != 0 {
      var existing, err := store.Get(t.key, up(0));
      if !err && existing.Some? && Effective(existing.value, t.strategy) {
        if existing.value.reason.LoopEscalated? {
          return true, false, loopingModel;
        }
        if existing.value.reason == UserForced(false) {
          userForced := true;
        }
        if existing.value.model != "" {
          loopingModel := existing.value.model;
        }
      }
    }
    if t.force.Some? {
      var forced := LoadForceModelSessionPin(store, t.pinsWired, t.force.value, t.now, up(1));
      if forced.active.Some? {
        userForced, loopingModel := true, forced.active.value.model;
      }
    }
  }

  /** handleLoopEscalation. */
  method HandleLoopEscalation(store: SessionPins, log: EventLog, t: LoopTurn, up: Weather)
    modifies store, log
    ensures Tables(store.rows, log.rows) == AfterLoop(old(store.rows), old(log.rows), t, log.wired, up)
  {
    var rescued, userForced, loopingModel := ReadLoopState(store, t, up);
    if rescued {
      return;
    }
    if log.wired && t.installation != 0 {
      var count, err := log.Count(t.key, up(2));
      if !err && count > 0 {
        return;
      }
    }
    var holdout := log.wired && t.installation != 0 && InHoldout(t.prefix, t.holdoutPct);
    var action := Escalated;
    if !t.enabled {
      action := Disabled;
    } else if userForced {
      action := Forced;
    } else if t.withdrawn {
      action := AutomaticRoutingDisabled;
    } else if loopingModel == t.target {
      action := AlreadyStrong;
    } else if holdout {
      action := Holdout;
    }
    if action.Escalated? {
      if !t.pinsWired || t.installation == 0 {
        return;
      }
      var _, _ := store.Get(t.key, up(3));
      var err := store.Upsert(t.key, RescuePin(t), t.now, up(4));
      if err {
        return;
      }
    }
    if log.wired && t.installation != 0 {
      var _ := log.Insert(Event(t.key, loopingModel, action, t.target), up(5));
    }
  }

  // ------------------------------------------------------------------ the struggle move ----

  datatype Arm = Arm(model: string, cluster: string, provider: Option<string>)

  datatype StruggleTurn = StruggleTurn(
    key: Key,
    installation: nat,
    strategy: Strategy,
    now: int,
    force: Option<Session>,
    enabled: bool,
    prefix: nat,
    holdoutPct: int,
    rosterWired: bool,
    arm: Option<Arm>,             // what the roster answers; None for an error or no arm
    pinsWired: bool)

  const EARLY_TURNS := 30
  const EARLY_WALL := 600
  const LATE_TURNS := 80
  const LATE_WALL := 1800

  datatype Struggle = NotYet | Early | Late

  // struggleReasons: the late operating point supersedes the early one.
  function Reached(turns: int, wall: int): Struggle {
    if turns >= LATE_TURNS && wall >= LATE_WALL then Late
    else if turns >= EARLY_TURNS && wall >= EARLY_WALL then Early
    else NotYet
  }

  // The pin arms the move this turn.
  predicate Armed(p: Pin, t: StruggleTurn) {
    Effective(p, t.strategy) && !p.reason.StruggleEscalated? && Reached(p.turnCount + 1, t.now - p.firstAt).Early?
  }

  predicate StruggleForced(rows: Rows, p: Pin, t: StruggleTurn, up: Weather) {
    p.reason == UserForced(false) || ForceSeen(rows, t.force, t.now, up(1)).Some?
  }

  // The arm the move would pin: one with a provider, for a request with an installation.
  predicate Dispatchable(t: StruggleTurn) {
    t.arm.Some? && t.arm.value.model != "" && t.arm.value.provider.Some? && t.installation != 0
  }

  // Whether the switch reaches the roster at all, and what it records when it does not.
  function Withheld(rows: Rows, p: Pin, t: StruggleTurn, recorded: bool, up: Weather): Option<Action> {
    if !t.enabled then Some(Disabled)
    else if StruggleForced(rows, p, t, up) then Some(Forced)
    else if recorded && t.installation != 0 && InHoldout(t.prefix, t.holdoutPct) then Some(Holdout)
    else if p.group == "" || !t.rosterWired then Some(NoTarget)
    else if !Dispatchable(t) then Some(NoEligibleArms)
    else None
  }

  function MoveAction(p: Pin, t: StruggleTurn): Action
    requires Dispatchable(t)
  {
    if t.arm.value.cluster != p.group then UpCluster else Sideways
  }

  function MovePin(t: StruggleTurn): Incoming
    requires Dispatchable(t)
  {
    Incoming(t.installation, t.arm.value.provider.value, t.arm.value.model, "", "", StruggleEscalated, t.strategy,
             t.arm.value.cluster, 1, t.now + SESSION_TTL)
  }

  function Shown(model: string): string { if model == "" then "unknown" else model }

  function AfterStruggle(rows: Rows, events: seq<Event>, t: StruggleTurn, recorded: bool, up: Weather): Tables {
    if !t.pinsWired || !up(0) || t.key !in rows || !Armed(rows[t.key], t) then Tables(rows, events)
    else if recorded && t.installation != 0 && up(2) && CountOf(events, t.key) > 0 then Tables(rows, events)
    else
      var p := rows[t.key];
      var withheld := Withheld(rows, p, t, recorded, up);
      if withheld.Some? then
        Tables(rows, Recorded(events, Event(t.key, Shown(p.model), withheld.value, ""), recorded, t.installation,
                              up(4)))
      else if !up(3) then Tables(rows, events)
      else
        Tables(Upserted(rows, t.key, MovePin(t), t.now),
               Recorded(events, Event(t.key, Shown(p.model), MoveAction(p, t), t.arm.value.model), recorded,
                        t.installation, up(4)))
  }

  /** handleStruggleEscalation. */
  method HandleStruggleEscalation(store: SessionPins, log: EventLog, t: StruggleTurn, up: Weather)
    modifies store, log
    ensures Tables(store.rows, log.rows) == AfterStruggle(old(store.rows), old(log.rows), t, log.wired, up)
  {
    if !t.pinsWired {
      return;
    }
    var found, err := store.Get(t.key, up(0));
    if err || found.None? || !Effective(found.value, t.strategy) {
      return;
    }
    var pin := found.value;
    if pin.reason.StruggleEscalated? {
      return;
    }
    var userForced := pin.reason == UserForced(false);
    var reached := Reached(pin.turnCount + 1, t.now - pin.firstAt);
    if !reached.Early? {
      return;
    }
    if t.force.Some? {
      var forced := LoadForceModelSessionPin(store, true, t.force.value, t.now, up(1));
      userForced := userForced || forced.active.Some?;
    }
    if log.wired && t.installation != 0 {
      var count, failed := log.Count(t.key, up(2));
      if !failed && count > 0 {
        return;
      }
    }
    var holdout := log.wired && t.installation != 0 && InHoldout(t.prefix, t.holdoutPct);
    var action, target := Sideways, "";
    if !t.enabled {
      action := Disabled;
    } else if userForced {
      action := Forced;
    } else if holdout {
      action := Holdout;
    } else if pin.group == "" || !t.rosterWired {
      action := NoTarget;
    } else if !Dispatchable(t) {
      action := NoEligibleArms;
    } else {
      target := t.arm.value.model;
      if t.arm.value.cluster != pin.group {
        action := UpCluster;
      }
      var failed := store.Upsert(t.key, MovePin(t), t.now, up(3));
      if failed {
        return;
      }
    }
    if log.wired && t.installation != 0 {
      var _ := log.Insert(Event(t.key, Shown(pin.model), action, target), up(4));
    }
  }

  // ----------------------------------------------------------------------- properties ----

  predicate Moves(a: Action) { a.Escalated? || a.UpCluster? || a.Sideways? }

  // A move's pin is in place: the target model under the escalation's own reason.
  predicate Landed(rows: Rows, e: Event) {
    e.key in rows && rows[e.key].model == e.target
      && (rows[e.key].reason.LoopEscalated? || rows[e.key].reason.StruggleEscalated?)
  }

  /** Pin first, record second: a turn records at most one event, for its own session and
      role; a recorded move's pin is already in place; and a turn that changes the pin table
      records only that. */
  lemma LoopPinsBeforeItRecords(rows: Rows, events: seq<Event>, t: LoopTurn, recorded: bool, up: Weather)
    ensures var after := AfterLoop(rows, events, t, recorded, up);
            || after.events == events
            || exists e :: after.events == events + [e] && e.key == t.key
                 && (if Moves(e.action) then Landed(after.rows, e) else after.rows == rows)
  {
    var e := LoopEvent(rows, t, recorded, up);
    var after := AfterLoop(rows, events, t, recorded, up);
    assert after.events == events || after.events == events + [e];
  }

  lemma StrugglePinsBeforeItRecords(rows: Rows, events: seq<Event>, t: StruggleTurn, recorded: bool, up: Weather)
    ensures var after := AfterStruggle(rows, events, t, recorded, up);
            || after.events == events
            || exists e :: after.events == events + [e] && e.key == t.key
                 && (if Moves(e.action) then Landed(after.rows, e) else after.rows == rows)
  {
    var after := AfterStruggle(rows, events, t, recorded, up);
    if after.events != events {
      var p := rows[t.key];
      var withheld := Withheld(rows, p, t, recorded, up);
      if withheld.Some? {
        var e := Event(t.key, Shown(p.model), withheld.value, "");
        assert after.events == events + [e] && !Moves(e.action);
      } else {
        var e := Event(t.key, Shown(p.model), MoveAction(p, t), t.arm.value.model);
        assert after.events == events + [e] && Moves(e.action) && Landed(after.rows, e);
      }
    }
  }

  /** The session's one event: with its count read, a turn adds none where one stands. */
  lemma LoopBudget(rows: Rows, events: seq<Event>, t: LoopTurn, recorded: bool, up: Weather)
    requires up(2)
    ensures CountOf(events, t.key) > 0 ==> AfterLoop(rows, events, t, recorded, up).events == events
  { }

  lemma StruggleBudget(rows: Rows, events: seq<Event>, t: StruggleTurn, recorded: bool, up: Weather)
    requires up(2)
    ensures CountOf(events, t.key) > 0 ==> AfterStruggle(rows, events, t, recorded, up).events == events
  { }

  /** A rescue whose pin could not be written leaves everything as it was, event included, so
      the next turn tries again and, with the store back, succeeds. */
  lemma FailedRescueIsRetried(rows: Rows, events: seq<Event>, t: LoopTurn, recorded: bool, up: Weather)
    requires !LoopSpent(rows, events, t, recorded, up) && LoopAction(rows, t, recorded, up).Escalated?
    requires t.pinsWired && t.installation != 0 && !up(4)
    ensures AfterLoop(rows, events, t, recorded, up) == Tables(rows, events)
    ensures forall again: Weather :: (forall i | 0 <= i < 3 :: again(i) == up(i)) && again(4) ==>
              Landed(AfterLoop(rows, events, t, recorded, again).rows, LoopEvent(rows, t, recorded, again))
  {
    forall again: Weather | (forall i | 0 <= i < 3 :: again(i) == up(i)) && again(4)
      ensures Landed(AfterLoop(rows, events, t, recorded, again).rows, LoopEvent(rows, t, recorded, again))
    {
      assert again(0) == up(0) && again(1) == up(1) && again(2) == up(2);
      assert Seen(rows, t, again) == Seen(rows, t, up);
      assert LoopAction(rows, t, recorded, again) == LoopAction(rows, t, recorded, up);
    }
  }

  /** While the user's force is active no turn of the session it rules moves its pin. */
  lemma LoopLeavesForcedAlone(rows: Rows, events: seq<Event>, t: LoopTurn, recorded: bool, up: Weather)
    requires t.pinsWired && up(1) && ForceSeen(rows, t.force, t.now, true).Some?
    ensures AfterLoop(rows, events, t, recorded, up).rows == rows
  { }

  lemma StruggleLeavesForcedAlone(rows: Rows, events: seq<Event>, t: StruggleTurn, recorded: bool, up: Weather)
    requires up(1) && ForceSeen(rows, t.force, t.now, true).Some?
    ensures AfterStruggle(rows, events, t, recorded, up).rows == rows
  { }

  /** Exactly when a loop is rescued, the stores answering: nothing was recorded or rescued
      before, the switch is on, no force is in sight (one stored with a clamp suffix is not),
      the target is offered and is not the model already looping, and the session is not
      held out. */
  lemma RescuedExactlyWhen(rows: Rows, events: seq<Event>, t: LoopTurn, up: Weather)
    requires t.pinsWired && t.installation != 0 && forall i :: up(i)
    ensures AfterLoop(rows, events, t, true, up).rows != rows <==>
              && CountOf(events, t.key) == 0
              && (t.key in rows && Effective(rows[t.key], t.strategy) ==>
                    !rows[t.key].reason.LoopEscalated? && rows[t.key].reason != UserForced(false))
              && ForceSeen(rows, t.force, t.now, true).None?
              && t.enabled && !t.withdrawn && !InHoldout(t.prefix, t.holdoutPct)
              && (if t.key in rows && Effective(rows[t.key], t.strategy) && rows[t.key].model != ""
                  then rows[t.key].model else t.routedModel) != t.target
  {
    assert up(0) && up(1) && up(2) && up(4);
    var after := AfterLoop(rows, events, t, true, up).rows;
    if !LoopSpent(rows, events, t, true, up) && LoopAction(rows, t, true, up).Escalated? {
      assert t.key in rows ==>
          || after[t.key].turnCount == rows[t.key].turnCount + 1
          || after[t.key].strategy != rows[t.key].strategy;
    }
  }

  // The row's turn clock: it goes on under the same strategy, and starts at one otherwise.
  predicate StartsOrContinues(rows: Rows, after: Rows, k: Key, s: Strategy, now: int)
    requires k in after
  {
    if k in rows && rows[k].strategy == s
    then after[k].turnCount == rows[k].turnCount + 1 && after[k].firstAt == rows[k].firstAt
    else after[k].turnCount == 1 && after[k].firstAt == now
  }

  /** A rescue that changes the pin table pins the target at its provider for a whole session
      TTL: the row serves at every time before that and at none after, with no runner-up or
      policy group of the looping model's, and no other row is touched. */
  lemma RescuePinServes(rows: Rows, events: seq<Event>, t: LoopTurn, recorded: bool, up: Weather, at: int)
    requires AfterLoop(rows, events, t, recorded, up).rows != rows
    ensures var after := AfterLoop(rows, events, t, recorded, up).rows;
            && (Serves(after, t.key, t.strategy, at) <==> at < t.now + 3600)
            && after[t.key].model == t.target && after[t.key].provider == "aiand"
            && after[t.key].reason.LoopEscalated? && after[t.key].strategy == t.strategy
            && StartsOrContinues(rows, after, t.key, t.strategy, t.now)
            && LoopingModel(rows, t, up) != t.target
            && forall j | j != t.key :: (j in after <==> j in rows) && (j in rows ==> after[j] == rows[j])
  { }

  // The roster answered with a model that some provider serves.
  predicate HasArm(t: StruggleTurn) { t.arm.Some? && t.arm.value.model != "" && t.arm.value.provider.Some? }

  // The same weather, but for the fourth call.
  function But3(up: Weather): Weather { (i: nat) => i == 3 || up(i) }

  /** A move whose pin could not be written leaves everything as it was, event included. */
  lemma FailedMoveIsRetried(rows: Rows, events: seq<Event>, t: StruggleTurn, recorded: bool, up: Weather)
    requires AfterStruggle(rows, events, t, recorded, But3(up)).rows != rows && !up(3)
    ensures AfterStruggle(rows, events, t, recorded, up) == Tables(rows, events)
  {
    var all := But3(up);
    assert all(0) == up(0) && all(1) == up(1) && all(2) == up(2) && all(4) == up(4);
  }

  /** And a struggle move pins the roster's arm, at its provider and with its cluster as the
      policy group, for as long. */
  lemma MovePinServes(rows: Rows, events: seq<Event>, t: StruggleTurn, recorded: bool, up: Weather, at: int)
    requires AfterStruggle(rows, events, t, recorded, up).rows != rows
    ensures var after := AfterStruggle(rows, events, t, recorded, up).rows;
            && HasArm(t) && t.installation != 0
            && (Serves(after, t.key, t.strategy, at) <==> at < t.now + 3600)
            && after[t.key].model == t.arm.value.model && Some(after[t.key].provider) == t.arm.value.provider
            && (t.arm.value.cluster != "" ==> after[t.key].group == t.arm.value.cluster)
            && after[t.key].reason.StruggleEscalated? && after[t.key].strategy == t.strategy
            && StartsOrContinues(rows, after, t.key, t.strategy, t.now)
            && forall j | j != t.key :: (j in after <==> j in rows) && (j in rows ==> after[j] == rows[j])
  { }

  /** What a loop turn that goes on records, the event table answering: the model it found
      looping, and the first of these reasons that holds for leaving it, or the rescue. */
  lemma LoopRecordsWhy(rows: Rows, events: seq<Event>, t: LoopTurn, up: Weather)
    requires t.installation != 0 && !LoopSpent(rows, events, t, true, up) && up(5)
    requires LoopAction(rows, t, true, up).Escalated? ==> t.pinsWired && up(4)
    ensures var after := AfterLoop(rows, events, t, true, up).events;
            |after| == |events| + 1 && after[..|events|] == events &&
            var e := after[|events|];
            var held := InHoldout(t.prefix, t.holdoutPct);
            var forced := t.pinsWired && ((up(0) && t.key in rows && rows[t.key].reason == UserForced(false))
                                          || ForceSeen(rows, t.force, t.now, up(1)).Some?);
            && e.key == t.key && e.target == t.target
            && e.model == (if t.pinsWired && ForceSeen(rows, t.force, t.now, up(1)).Some?
                           then rows[ControlKey(t.force.value)].model
                           else if t.pinsWired && up(0) && t.key in rows && Effective(rows[t.key], t.strategy)
                                   && rows[t.key].model != "" then rows[t.key].model else t.routedModel)
            && (e.action.Disabled? <==> !t.enabled)
            && (e.action.Forced? <==> t.enabled && forced)
            && (e.action.AutomaticRoutingDisabled? <==> t.enabled && !forced && t.withdrawn)
            && (e.action.AlreadyStrong? <==> t.enabled && !forced && !t.withdrawn && e.model == t.target)
            && (e.action.Holdout? <==> t.enabled && !forced && !t.withdrawn && e.model != t.target && held)
            && (e.action.Escalated? <==> t.enabled && !forced && !t.withdrawn && e.model != t.target && !held)
  {
    hide Upserted;
  }

  /** What an armed struggle turn records, the event table answering: the model it found, or
      "unknown" for none, and what was done: the target of a move, or the first of these
      reasons that holds for making none. */
  lemma StruggleRecordsWhy(rows: Rows, events: seq<Event>, t: StruggleTurn, up: Weather)
    requires t.pinsWired && t.installation != 0 && up(0) && up(3) && up(4)
    requires t.key in rows && Armed(rows[t.key], t) && (up(2) ==> CountOf(events, t.key) == 0)
    ensures var after := AfterStruggle(rows, events, t, true, up).events;
            |after| == |events| + 1 && after[..|events|] == events &&
            var e, p := after[|events|], rows[t.key];
            var held := InHoldout(t.prefix, t.holdoutPct);
            var forced := p.reason == UserForced(false) || ForceSeen(rows, t.force, t.now, up(1)).Some?;
            && e.key == t.key && e.model == (if p.model == "" then "unknown" else p.model)
            && e.target == (if Moves(e.action) && t.arm.Some? then t.arm.value.model else "")
            && (e.action.Disabled? <==> !t.enabled)
            && (e.action.Forced? <==> t.enabled && forced)
            && (e.action.Holdout? <==> t.enabled && !forced && held)
            && (e.action.NoTarget? <==> t.enabled && !forced && !held && (p.group == "" || !t.rosterWired))
            && (e.action.NoEligibleArms? <==>
                  t.enabled && !forced && !held && p.group != "" && t.rosterWired && !HasArm(t))
            && (Moves(e.action) <==>
                  t.enabled && !forced && !held && p.group != "" && t.rosterWired && HasArm(t))
            && (Moves(e.action) ==> (e.action.Sideways? <==> t.arm.value.cluster == p.group))
  {
    hide Upserted;
  }

  /** The held-out share: none at zero percent or less, all at a hundred or more, and otherwise
      the sessions whose key falls in the first pct of every hundred. */
  lemma HoldoutShare(prefix: nat, pct: int)
    ensures InHoldout(prefix, pct) <==> prefix % 100 < pct
  { }

  /** Exactly when a struggling session is moved, the stores answering: its pin is armed,
      nothing was recorded before, the switch is on, no force is in sight, the session is not
      held out, and the roster has a dispatchable arm for the pin's policy group. */
  lemma MovedExactlyWhen(rows: Rows, events: seq<Event>, t: StruggleTurn, up: Weather)
    requires t.pinsWired && t.installation != 0 && forall i :: up(i)
    ensures AfterStruggle(rows, events, t, true, up).rows != rows <==>
              && t.key in rows && Armed(rows[t.key], t)
              && CountOf(events, t.key) == 0
              && t.enabled && rows[t.key].reason != UserForced(false) && ForceSeen(rows, t.force, t.now, true).None?
              && !InHoldout(t.prefix, t.holdoutPct)
              && rows[t.key].group != "" && t.rosterWired && HasArm(t)
  {
    assert up(0) && up(1) && up(2) && up(3);
    var after := AfterStruggle(rows, events, t, true, up).rows;
    assert t.key in rows && after != rows ==>
      after[t.key].turnCount == rows[t.key].turnCount + 1 || after[t.key].strategy != rows[t.key].strategy;
    if t.key in rows && Dispatchable(t) {
      var moved := Upserted(rows, t.key, MovePin(t), t.now);
      assert moved[t.key].turnCount == rows[t.key].turnCount + 1 || moved[t.key].strategy != rows[t.key].strategy;
    }
  }

  /** A session that grinds on past the late point without having been armed is never moved:
      the move is open only between the two operating points. */
  lemma ArmedOnlyBetweenThePoints(p: Pin, t: StruggleTurn)
    ensures Armed(p, t) ==> p.turnCount + 1 >= EARLY_TURNS && t.now - p.firstAt >= EARLY_WALL
    ensures p.turnCount + 1 >= LATE_TURNS && t.now - p.firstAt >= LATE_WALL ==> !Armed(p, t)
    ensures Armed(p, t) <==>
              && Effective(p, t.strategy) && !p.reason.StruggleEscalated?
              && p.turnCount + 1 >= EARLY_TURNS && t.now - p.firstAt >= EARLY_WALL
              && (p.turnCount + 1 < LATE_TURNS || t.now - p.firstAt < LATE_WALL)
  { }
}
