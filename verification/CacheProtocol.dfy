/** Every interleaving of Sets, invalidations and evictions over the steps of
    InvalidationCache (internal/auth/apikey_cache.go).

    `Next` is one atomic step of one of any number of operations in flight.  The
    entries a client may still be served after an invalidation are exactly the
    unindexed ones nobody is about to remove, so the invariants below say of every
    cached entry that it is indexed, or doomed: some operation in flight will still
    remove it. */
module CacheProtocol {
  import opened Wrappers
  import opened InvalidationCache

  type Id = nat   // one per Set or invalidation call, never reused

  // Where a Set is: its index step, its insertion, or a failed recheck behind it.
  datatype Phase = Listed | Added | Stale

  datatype Ticket = Ticket(key: Key, entry: Entry, preGen: nat)

  datatype Flight = Flight(phase: Phase, ticket: Ticket)

  datatype Sweep = Sweep(installation: Inst, pending: set<Key>)

  datatype Sys = Sys(
    cache: Cache,
    sets: map<Id, Flight>,            // Sets in flight
    sweeps: map<Id, Sweep>,           // invalidations in their removal loop
    // history, read by no step:
    begun: map<Id, Ticket>,           // every Set that ever started
    owner: map<Key, Id>,              // the Set that inserted each cached entry
    withdrawn: set<Id>)               // Sets whose recheck failed

  datatype Step =
    | Begin(id: Id, key: Key, entry: Entry)
    | Put(id: Id, victim: Option<Key>)
    | Recheck(id: Id)
    | Withdraw(id: Id)
    | SweepBegin(id: Id, installation: Inst)
    | SweepOne(id: Id, hash: Key)
    | SweepEnd(id: Id)
    | Lapse(lapsed: Key)

  predicate InPhase(s: Sys, t: Id, phase: Phase) {
    t in s.sets && s.sets[t].phase == phase
  }

  predicate Enabled(s: Sys, step: Step) {
    match step
    case Begin(t, k, e) => t !in s.begun && t !in s.sweeps
    case Put(t, victim) => InPhase(s, t, Listed) && MayEvict(s.cache, s.sets[t].ticket.key, victim)
    case Recheck(t) => InPhase(s, t, Added)
    case Withdraw(t) => InPhase(s, t, Stale)
    case SweepBegin(t, i) => t !in s.begun && t !in s.sweeps && i != ""
    case SweepOne(t, k) => t in s.sweeps && k in s.sweeps[t].pending
    case SweepEnd(t) => t in s.sweeps && s.sweeps[t].pending == {}
    case Lapse(k) => k in s.cache.entries
  }

  function WithEvicted(s: Sys, k: Key): Sys {
    s.(cache := Evict(s.cache, k), owner := s.owner - {k})
  }

  // The entry of Set t is in the LRU; a full LRU has not let go of another yet.
  function WithAdded(s: Sys, t: Id): Sys
    requires t in s.sets
  {
    var ticket := s.sets[t].ticket;
    s.(cache := Insert(s.cache, ticket.key, ticket.entry, None),
       owner := s.owner[ticket.key := t],
       sets := if ticket.entry.installation == "" then s.sets - {t} else s.sets[t := Flight(Added, ticket)])
  }

  function Next(s: Sys, step: Step): Sys
    requires Enabled(s, step)
  {
    match step
    case Begin(t, k, e) =>
      var ticket := Ticket(k, e, if e.installation == "" then 0 else GenOf(s.cache, e.installation));
      s.(cache := if e.installation == "" then s.cache else IndexStep(s.cache, k, e.installation),
         sets := s.sets[t := Flight(Listed, ticket)],
         begun := s.begun[t := ticket])
    case Put(t, victim) =>
      if victim.Some? then WithEvicted(WithAdded(s, t), victim.value) else WithAdded(s, t)
    case Recheck(t) =>
      var ticket := s.sets[t].ticket;
      var i := ticket.entry.installation;
      if GenOf(s.cache, i) == ticket.preGen then s.(sets := s.sets - {t})
      else
        s.(cache := s.cache.(index := IndexDrop(s.cache.index, i, ticket.key)),
           sets := s.sets[t := Flight(Stale, ticket)],
           withdrawn := s.withdrawn + {t})
    case Withdraw(t) =>
      WithEvicted(s, s.sets[t].ticket.key).(sets := s.sets - {t})
    case SweepBegin(t, i) =>
      s.(cache := TakeBucket(s.cache, i),
         sweeps := s.sweeps[t := Sweep(i, Bucket(s.cache.index, i))])
    case SweepOne(t, k) =>
      WithEvicted(s, k).(sweeps := s.sweeps[t := Sweep(s.sweeps[t].installation, s.sweeps[t].pending - {k})])
    case SweepEnd(t) => s.(sweeps := s.sweeps - {t})
    case Lapse(k) => WithEvicted(s, k)
  }

  const START := Sys(EMPTY, map[], map[], map[], map[], {})

  function Exec(s: Sys, steps: seq<Step>): Sys
    requires Legal(s, steps)
    decreases |steps|
  {
    if steps == [] then s else Exec(Next(s, steps[0]), steps[1..])
  }

  predicate Legal(s: Sys, steps: seq<Step>)
    decreases |steps|
  {
    steps != [] ==> Enabled(s, steps[0]) && Legal(Next(s, steps[0]), steps[1..])
  }

  predicate AtRest(s: Sys) {
    s.sets == map[] && s.sweeps == map[]
  }

  lemma PutIsInsert(s: Sys, t: Id, victim: Option<Key>)
    requires Enabled(s, Put(t, victim))
    ensures Next(s, Put(t, victim)).cache == Insert(s.cache, s.sets[t].ticket.key, s.sets[t].ticket.entry, victim)
  {
  }

  // ------------------------------------------------------------- bookkeeping ----

  ghost predicate FlightRight(s: Sys, t: Id)
    requires t in s.sets
  {
    var f := s.sets[t];
    && t in s.begun && f.ticket == s.begun[t]
    && (f.phase != Listed ==> f.ticket.entry.installation != "")
    && (t in s.withdrawn <==> f.phase == Stale)
  }

  // The recorded owner of k put this very entry there, and no withdrawn Set that has
  // returned owns anything.
  ghost predicate OwnedRightly(s: Sys, k: Key)
    requires k in s.owner
  {
    var t := s.owner[k];
    && t in s.begun && s.begun[t].key == k
    && k in s.cache.entries && s.cache.entries[k] == s.begun[t].entry
    && !InPhase(s, t, Listed)
    && (t in s.withdrawn ==> t in s.sets)
  }

  ghost predicate TicketRight(s: Sys, t: Id)
    requires t in s.begun
  {
    s.begun[t].preGen <= GenOf(s.cache, s.begun[t].entry.installation)
  }

  ghost predicate Books(s: Sys) {
    && s.cache.entries.Keys <= s.owner.Keys
    && s.withdrawn <= s.begun.Keys
    && (forall t | t in s.sets :: FlightRight(s, t))
    && (forall k | k in s.owner :: OwnedRightly(s, k))
    && (forall t | t in s.begun :: TicketRight(s, t))
  }

  lemma BooksEvicted(s: Sys, k: Key)
    requires Books(s)
    ensures Books(WithEvicted(s, k))
  {
    var s' := WithEvicted(s, k);
    forall t | t in s'.sets ensures FlightRight(s', t) { assert FlightRight(s, t); }
    forall m | m in s'.owner ensures OwnedRightly(s', m) { assert OwnedRightly(s, m); }
    forall t | t in s'.begun ensures TicketRight(s', t) { assert TicketRight(s, t); }
  }

  lemma BooksAdded(s: Sys, t: Id)
    requires Books(s) && InPhase(s, t, Listed)
    ensures Books(WithAdded(s, t))
  {
    var s' := WithAdded(s, t);
    assert FlightRight(s, t);
    forall u | u in s'.sets ensures FlightRight(s', u) { assert FlightRight(s, u); }
    forall m | m in s'.owner ensures OwnedRightly(s', m) {
      if m != s.sets[t].ticket.key { assert OwnedRightly(s, m); }
    }
    forall u | u in s'.begun ensures TicketRight(s', u) { assert TicketRight(s, u); }
  }

  lemma BooksBegun(s: Sys, t: Id, k: Key, e: Entry)
    requires Books(s) && Enabled(s, Begin(t, k, e))
    ensures Books(Next(s, Begin(t, k, e)))
  {
    var s' := Next(s, Begin(t, k, e));
    forall u | u in s'.sets ensures FlightRight(s', u) { if u != t { assert FlightRight(s, u); } }
    forall m | m in s'.owner ensures OwnedRightly(s', m) { assert OwnedRightly(s, m); }
    forall u | u in s'.begun ensures TicketRight(s', u) { if u != t { assert TicketRight(s, u); } }
  }

  lemma BooksRechecked(s: Sys, t: Id)
    requires Books(s) && Enabled(s, Recheck(t))
    ensures Books(Next(s, Recheck(t)))
  {
    var s' := Next(s, Recheck(t));
    assert FlightRight(s, t);
    forall u | u in s'.sets ensures FlightRight(s', u) { assert FlightRight(s, u); }
    forall m | m in s'.owner ensures OwnedRightly(s', m) { assert OwnedRightly(s, m); }
    forall u | u in s'.begun ensures TicketRight(s', u) { assert TicketRight(s, u); }
  }

  lemma BooksWithdrawn(s: Sys, t: Id)
    requires Books(s) && Enabled(s, Withdraw(t))
    ensures Books(Next(s, Withdraw(t)))
  {
    var k := s.sets[t].ticket.key;
    BooksEvicted(s, k);
    var e, s' := WithEvicted(s, k), Next(s, Withdraw(t));
    assert FlightRight(s, t);
    forall u | u in s'.sets ensures FlightRight(s', u) { assert FlightRight(e, u); }
    forall m | m in s'.owner ensures OwnedRightly(s', m) { assert OwnedRightly(e, m); }
    forall u | u in s'.begun ensures TicketRight(s', u) { assert TicketRight(e, u); }
  }

  // A step that leaves entries, Sets and history alone, and no generation lower.
  lemma BooksUntouched(s: Sys, s': Sys)
    requires Books(s)
    requires s'.cache.entries == s.cache.entries && s'.sets == s.sets && s'.begun == s.begun
    requires s'.owner == s.owner && s'.withdrawn == s.withdrawn
    requires forall i :: GenOf(s.cache, i) <= GenOf(s'.cache, i)
    ensures Books(s')
  {
    forall u | u in s'.sets ensures FlightRight(s', u) { assert FlightRight(s, u); }
    forall m | m in s'.owner ensures OwnedRightly(s', m) { assert OwnedRightly(s, m); }
    forall u | u in s'.begun ensures TicketRight(s', u) { assert TicketRight(s, u); }
  }

  lemma BooksKept(s: Sys, step: Step)
    requires Books(s) && Enabled(s, step)
    ensures Books(Next(s, step))
  {
    match step
    case Begin(t, k, e) => BooksBegun(s, t, k, e);
    case Put(t, victim) =>
      BooksAdded(s, t);
      if victim.Some? { BooksEvicted(WithAdded(s, t), victim.value); }
    case Recheck(t) => BooksRechecked(s, t);
    case Withdraw(t) => BooksWithdrawn(s, t);
    case SweepBegin(t, i) => BooksUntouched(s, Next(s, step));
    case SweepOne(t, k) =>
      BooksEvicted(s, k);
      BooksUntouched(WithEvicted(s, k), Next(s, step));
    case SweepEnd(t) => BooksUntouched(s, Next(s, step));
    case Lapse(k) => BooksEvicted(s, k);
  }

  lemma {:induction false} BooksAlways(s: Sys, steps: seq<Step>)
    requires Books(s) && Legal(s, steps)
    ensures Books(Exec(s, steps))
    decreases |steps|
  {
    if steps != [] {
      BooksKept(s, steps[0]);
      BooksAlways(Next(s, steps[0]), steps[1..]);
    }
  }

  // -------------------------------------------- a Set overtaken by an invalidation ----

  lemma {:induction false} ExecSplit(s: Sys, steps: seq<Step>, n: nat)
    requires Legal(s, steps) && n <= |steps|
    ensures Legal(s, steps[..n]) && Legal(Exec(s, steps[..n]), steps[n..])
    ensures Exec(s, steps) == Exec(Exec(s, steps[..n]), steps[n..])
    decreases |steps|
  {
    if n == 0 {
      assert steps[..0] == [] && steps[0..] == steps;
    } else {
      ExecSplit(Next(s, steps[0]), steps[1..], n - 1);
      assert steps[..n][1..] == steps[1..][..n - 1] && steps[n..] == steps[1..][n - 1..];
    }
  }

  // What never goes back along a run.
  ghost predicate Later(s: Sys, s': Sys) {
    && (forall t | t in s.begun :: t in s'.begun && s'.begun[t] == s.begun[t])
    && s.withdrawn <= s'.withdrawn
    && (forall i :: GenOf(s.cache, i) <= GenOf(s'.cache, i))
  }

  lemma StepLater(s: Sys, step: Step)
    requires Enabled(s, step)
    ensures Later(s, Next(s, step))
  {
  }

  lemma {:induction false} RunLater(s: Sys, steps: seq<Step>)
    requires Legal(s, steps)
    ensures Later(s, Exec(s, steps))
    decreases |steps|
  {
    if steps != [] {
      StepLater(s, steps[0]);
      RunLater(Next(s, steps[0]), steps[1..]);
    }
  }

  // The state before step n of a run from the start.
  function At(steps: seq<Step>, n: nat): Sys
    requires Legal(START, steps) && n <= |steps|
  {
    ExecSplit(START, steps, n);
    Exec(START, steps[..n])
  }

  lemma AtNext(steps: seq<Step>, n: nat)
    requires Legal(START, steps) && n < |steps|
    ensures Enabled(At(steps, n), steps[n]) && At(steps, n + 1) == Next(At(steps, n), steps[n])
    ensures Books(At(steps, n)) && Books(At(steps, n + 1))
  {
    ExecSplit(START, steps, n);
    ExecSplit(START, steps, n + 1);
    ExecSplit(START, steps[..n + 1], n);
    assert steps[..n + 1][..n] == steps[..n] && steps[..n + 1][n..] == [steps[n]];
    assert steps[n..][0] == steps[n];
    var s := At(steps, n);
    assert Exec(s, [steps[n]]) == Exec(Next(s, steps[n]), []);
    BooksAlways(START, steps[..n]);
    BooksAlways(START, steps[..n + 1]);
  }

  lemma AtLater(steps: seq<Step>, m: nat, n: nat)
    requires Legal(START, steps) && m <= n <= |steps|
    ensures Later(At(steps, m), At(steps, n))
  {
    ExecSplit(START, steps, n);
    ExecSplit(START, steps[..n], m);
    assert steps[..n][..m] == steps[..m];
    RunLater(At(steps, m), steps[..n][m..]);
  }

  // From its index step to its recheck a Set holds the ticket it drew.
  lemma TicketHeld(steps: seq<Step>, a: nat, c: nat, t: Id)
    requires Legal(START, steps) && a < c < |steps|
    requires steps[a].Begin? && steps[a].id == t && steps[a].entry.installation != ""
    requires steps[c] == Recheck(t)
    ensures t in At(steps, c).sets
    ensures At(steps, c).sets[t].ticket
         == Ticket(steps[a].key, steps[a].entry, GenOf(At(steps, a).cache, steps[a].entry.installation))
  {
    AtNext(steps, a);
    AtNext(steps, c);
    AtLater(steps, a + 1, c);
    assert FlightRight(At(steps, c), t);
  }

  lemma GenerationMoved(steps: seq<Step>, a: nat, b: nat, c: nat, i: Inst)
    requires Legal(START, steps) && a < b < c < |steps|
    requires steps[b].SweepBegin? && steps[b].installation == i
    ensures GenOf(At(steps, a).cache, i) < GenOf(At(steps, c).cache, i)
  {
    AtNext(steps, b);
    AtLater(steps, a, b);
    AtLater(steps, b + 1, c);
  }

  lemma RecheckFails(s: Sys, t: Id)
    requires Enabled(s, Recheck(t))
    requires s.sets[t].ticket.preGen < GenOf(s.cache, s.sets[t].ticket.entry.installation)
    ensures t in Next(s, Recheck(t)).withdrawn
  {
  }

  lemma WithdrawnOwnsNothing(s: Sys, t: Id)
    requires Books(s) && t in s.withdrawn && t !in s.sets
    ensures forall k | k in s.cache.entries :: k in s.owner && s.owner[k] != t
  {
    forall k | k in s.cache.entries ensures k in s.owner && s.owner[k] != t {
      assert OwnedRightly(s, k);
    }
  }

  lemma OvertakenIsWithdrawn(steps: seq<Step>, a: nat, b: nat, c: nat, t: Id)
    requires Legal(START, steps) && a < b < c < |steps|
    requires steps[a].Begin? && steps[a].id == t
    requires steps[b].SweepBegin? && steps[b].installation == steps[a].entry.installation
    requires steps[c] == Recheck(t)
    ensures t in At(steps, c + 1).withdrawn
  {
    AtNext(steps, b);
    TicketHeld(steps, a, c, t);
    GenerationMoved(steps, a, b, c, steps[b].installation);
    AtNext(steps, c);
    RecheckFails(At(steps, c), t);
  }

  /** Whatever else runs, a Set whose index step comes before an invalidation of its
      installation, and its recheck after, has no entry of its own left in the LRU from
      the moment it has returned. */
  lemma OvertakenSetLeavesNothing(steps: seq<Step>, a: nat, b: nat, c: nat, t: Id, n: nat)
    requires Legal(START, steps) && a < b < c < n <= |steps|
    requires steps[a].Begin? && steps[a].id == t
    requires steps[b].SweepBegin? && steps[b].installation == steps[a].entry.installation
    requires steps[c] == Recheck(t)
    ensures t !in At(steps, n).sets ==>
              forall k | k in At(steps, n).cache.entries :: k in At(steps, n).owner && At(steps, n).owner[k] != t
  {
    hide Legal, Exec, Next, Enabled, Books;
    OvertakenIsWithdrawn(steps, a, b, c, t);
    AtLater(steps, c + 1, n);
    var s := At(steps, n);
    AtBooks(steps, n);
    if t !in s.sets {
      WithdrawnOwnsNothing(s, t);
    }
  }

  lemma AtBooks(steps: seq<Step>, n: nat)
    requires Legal(START, steps) && n <= |steps|
    ensures Books(At(steps, n))
  {
    ExecSplit(START, steps, n);
    BooksAlways(START, steps[..n]);
  }

  // -------------------------------------------------- what a rest leaves behind ----

  // The index entries a step takes away by a callback or a rollback.
  function Drops(s: Sys, step: Step): set<(Inst, Key)>
    requires Enabled(s, step)
  {
    match step
    case Put(_, victim) => if victim.Some? then DropOf(s, victim.value) else {}
    case Recheck(t) =>
      var ticket := s.sets[t].ticket;
      if GenOf(s.cache, ticket.entry.installation) == ticket.preGen then {}
      else {(ticket.entry.installation, ticket.key)}
    case Withdraw(t) => DropOf(s, s.sets[t].ticket.key)
    case SweepOne(_, k) => DropOf(s, k)
    case Lapse(k) => DropOf(s, k)
    case _ => {}
  }

  function DropOf(s: Sys, k: Key): set<(Inst, Key)> {
    if k in s.cache.entries then {(s.cache.entries[k].installation, k)} else {}
  }

  // No step takes away the index entry of a Set that has not inserted yet.
  ghost predicate Undisturbed(s: Sys, step: Step)
    requires Enabled(s, step)
  {
    forall t | InPhase(s, t, Listed) ::
      (s.sets[t].ticket.entry.installation, s.sets[t].ticket.key) !in Drops(s, step)
  }

  // Some operation in flight will still remove the entry at k.
  ghost predicate Doomed(s: Sys, k: Key) {
    || (exists t | t in s.sets :: s.sets[t].phase == Stale && s.sets[t].ticket.key == k)
    || (exists u | u in s.sweeps :: k in s.sweeps[u].pending)
    || (k in s.owner && InPhase(s, s.owner[k], Added)
        && GenOf(s.cache, s.sets[s.owner[k]].ticket.entry.installation) != s.sets[s.owner[k]].ticket.preGen)
  }

  // A Set waiting to insert is indexed, or its recheck will fail.
  ghost predicate ListedSafe(s: Sys, t: Id)
    requires t in s.sets
  {
    var k, e, g := s.sets[t].ticket.key, s.sets[t].ticket.entry, s.sets[t].ticket.preGen;
    s.sets[t].phase == Listed && e.installation != "" ==>
      IsIndexed(s.cache, e.installation, k) || GenOf(s.cache, e.installation) != g
  }

  // A cached entry is indexed and as fresh as its installation's last invalidation,
  // or doomed.
  ghost predicate EntrySafe(s: Sys, k: Key)
    requires k in s.cache.entries
  {
    var i := s.cache.entries[k].installation;
    i != "" ==>
      || Doomed(s, k)
      || (IsIndexed(s.cache, i, k) && k in s.owner && s.owner[k] in s.begun
          && s.begun[s.owner[k]].preGen == GenOf(s.cache, i))
  }

  ghost predicate Safe(s: Sys) {
    && Books(s)
    && (forall t | t in s.sets :: ListedSafe(s, t))
    && (forall k | k in s.cache.entries :: EntrySafe(s, k))
  }

  lemma SafeEvicted(s: Sys, k: Key)
    requires Safe(s)
    requires forall t | InPhase(s, t, Listed) ::
               (s.sets[t].ticket.entry.installation, s.sets[t].ticket.key) !in DropOf(s, k)
    ensures Safe(WithEvicted(s, k))
  {
    var s' := WithEvicted(s, k);
    BooksEvicted(s, k);
    forall j, m ensures IsIndexed(s'.cache, j, m)
      <==> IsIndexed(s.cache, j, m) && !(j != "" && (j, m) in DropOf(s, k)) {
      if k in s.cache.entries && s.cache.entries[k].installation != "" {
        DropFacts(s.cache.index, s.cache.entries[k].installation, k, j, m);
      }
    }
    forall t | t in s'.sets ensures ListedSafe(s', t) { assert ListedSafe(s, t); }
    forall m | m in s'.cache.entries ensures EntrySafe(s', m) {
      assert EntrySafe(s, m);
      DoomedElsewhere(s, s', m);
    }
  }

  // Doom is kept where Sets, sweeps, generations and this entry's owner stay.
  lemma DoomedElsewhere(s: Sys, s': Sys, m: Key)
    requires s'.sets == s.sets && s'.sweeps == s.sweeps && s'.cache.gen == s.cache.gen
    requires m in s.owner ==> m in s'.owner && s'.owner[m] == s.owner[m]
    ensures Doomed(s, m) ==> Doomed(s', m)
  {
  }

  lemma SafeAdded(s: Sys, t: Id)
    requires Safe(s) && InPhase(s, t, Listed)
    ensures Safe(WithAdded(s, t))
  {
    var s' := WithAdded(s, t);
    BooksAdded(s, t);
    assert ListedSafe(s, t) && FlightRight(s, t);
    forall u | u in s'.sets ensures ListedSafe(s', u) { assert ListedSafe(s, u); }
    forall m | m in s'.cache.entries ensures EntrySafe(s', m) {
      if m != s.sets[t].ticket.key {
        assert EntrySafe(s, m) && OwnedRightly(s, m);
        if Doomed(s, m) {
          if f :| f in s.sets && s.sets[f].phase == Stale && s.sets[f].ticket.key == m {
            assert s'.sets[f] == s.sets[f];
          }
        }
      }
    }
  }

  lemma SafeBegun(s: Sys, t: Id, k: Key, e: Entry)
    requires Safe(s) && Enabled(s, Begin(t, k, e))
    ensures Safe(Next(s, Begin(t, k, e)))
  {
    var s' := Next(s, Begin(t, k, e));
    BooksBegun(s, t, k, e);
    forall j, m | IsIndexed(s.cache, j, m) ensures IsIndexed(s'.cache, j, m) { }
    assert forall u | u in s.sets :: FlightRight(s, u) && u in s.begun;
    forall u | u in s'.sets ensures ListedSafe(s', u) {
      if u != t { assert ListedSafe(s, u); }
    }
    forall m | m in s'.cache.entries ensures EntrySafe(s', m) {
      assert EntrySafe(s, m) && OwnedRightly(s, m);
      SafeEntryBegun(s, t, k, e, m);
    }
  }

  lemma SafeEntryBegun(s: Sys, t: Id, k: Key, e: Entry, m: Key)
    requires Enabled(s, Begin(t, k, e)) && m in s.cache.entries && EntrySafe(s, m)
    requires m in s.owner && OwnedRightly(s, m)
    requires forall u | u in s.sets :: u in s.begun
    ensures m in Next(s, Begin(t, k, e)).cache.entries && EntrySafe(Next(s, Begin(t, k, e)), m)
  {
    var s' := Next(s, Begin(t, k, e));
    var i := s.cache.entries[m].installation;
    if IsIndexed(s.cache, i, m) { assert IsIndexed(s'.cache, i, m); }
    if f :| f in s.sets && s.sets[f].phase == Stale && s.sets[f].ticket.key == m {
      assert s'.sets[f] == s.sets[f];
    }
  }

  lemma SafeRechecked(s: Sys, t: Id)
    requires Safe(s) && Enabled(s, Recheck(t)) && Undisturbed(s, Recheck(t))
    ensures Safe(Next(s, Recheck(t)))
  {
    var s' := Next(s, Recheck(t));
    BooksRechecked(s, t);
    var ticket := s.sets[t].ticket;
    var i, k := ticket.entry.installation, ticket.key;
    assert FlightRight(s, t);
    forall j, m ensures IsIndexed(s'.cache, j, m) <==>
      IsIndexed(s.cache, j, m) && !(GenOf(s.cache, i) != ticket.preGen && j == i && m == k)
    {
      DropFacts(s.cache.index, i, k, j, m);
    }
    forall u | u in s'.sets ensures ListedSafe(s', u) { assert ListedSafe(s, u); }
    forall m | m in s'.cache.entries ensures EntrySafe(s', m) {
      assert EntrySafe(s, m) && OwnedRightly(s, m);
      if GenOf(s.cache, i) != ticket.preGen {
        assert s'.sets[t].phase == Stale && s'.sets[t].ticket.key == k;
      }
      if f :| f in s.sets && s.sets[f].phase == Stale && s.sets[f].ticket.key == m {
        assert s'.sets[f] == s.sets[f];
      }
    }
  }

  lemma SafeSweepBegun(s: Sys, t: Id, i: Inst)
    requires Safe(s) && Enabled(s, SweepBegin(t, i))
    ensures Safe(Next(s, SweepBegin(t, i)))
  {
    var s' := Next(s, SweepBegin(t, i));
    BooksUntouched(s, s');
    forall u | u in s'.sets ensures ListedSafe(s', u) {
      assert ListedSafe(s, u) && FlightRight(s, u) && TicketRight(s, u);
    }
    forall m | m in s'.cache.entries ensures EntrySafe(s', m) {
      assert EntrySafe(s, m) && OwnedRightly(s, m) && TicketRight(s, s.owner[m]);
      if u :| u in s.sweeps && m in s.sweeps[u].pending { assert s'.sweeps[u] == s.sweeps[u]; }
      if InPhase(s, s.owner[m], Added) { assert FlightRight(s, s.owner[m]); }
      if IsIndexed(s.cache, i, m) { assert m in s'.sweeps[t].pending; }
    }
  }

  // A sweep strikes a key from its list; the key is no longer cached.
  lemma SafeStruck(s: Sys, u: Id, k: Key)
    requires Safe(s) && u in s.sweeps && k !in s.cache.entries
    ensures Safe(s.(sweeps := s.sweeps[u := Sweep(s.sweeps[u].installation, s.sweeps[u].pending - {k})]))
  {
    var s' := s.(sweeps := s.sweeps[u := Sweep(s.sweeps[u].installation, s.sweeps[u].pending - {k})]);
    BooksUntouched(s, s');
    forall t | t in s'.sets ensures ListedSafe(s', t) { assert ListedSafe(s, t); }
    forall m | m in s'.cache.entries ensures EntrySafe(s', m) {
      assert EntrySafe(s, m);
      if w :| w in s.sweeps && m in s.sweeps[w].pending { assert m in s'.sweeps[w].pending; }
    }
  }

  lemma SafeSweepEnded(s: Sys, u: Id)
    requires Safe(s) && u in s.sweeps && s.sweeps[u].pending == {}
    ensures Safe(s.(sweeps := s.sweeps - {u}))
  {
    var s' := s.(sweeps := s.sweeps - {u});
    BooksUntouched(s, s');
    forall t | t in s'.sets ensures ListedSafe(s', t) { assert ListedSafe(s, t); }
    forall m | m in s'.cache.entries ensures EntrySafe(s', m) {
      assert EntrySafe(s, m);
      if w :| w in s.sweeps && m in s.sweeps[w].pending { assert m in s'.sweeps[w].pending; }
    }
  }

  // A withdrawing Set leaves; its key is no longer cached.
  lemma SafeLeft(s: Sys, t: Id)
    requires Safe(s) && InPhase(s, t, Stale) && s.sets[t].ticket.key !in s.cache.entries
    requires s.sets[t].ticket.key !in s.owner
    ensures Safe(s.(sets := s.sets - {t}))
  {
    var s' := s.(sets := s.sets - {t});
    forall u | u in s'.sets ensures FlightRight(s', u) { assert FlightRight(s, u); }
    assert FlightRight(s, t);
    forall m | m in s'.owner ensures OwnedRightly(s', m) { assert OwnedRightly(s, m); }
    forall u | u in s'.begun ensures TicketRight(s', u) { assert TicketRight(s, u); }
    forall u | u in s'.sets ensures ListedSafe(s', u) { assert ListedSafe(s, u); }
    forall m | m in s'.cache.entries ensures EntrySafe(s', m) {
      assert EntrySafe(s, m) && OwnedRightly(s, m);
      if f :| f in s.sets && s.sets[f].phase == Stale && s.sets[f].ticket.key == m {
        assert s'.sets[f] == s.sets[f];
      }
    }
  }

  lemma SafeKept(s: Sys, step: Step)
    requires Safe(s) && Enabled(s, step) && Undisturbed(s, step)
    ensures Safe(Next(s, step))
  {
    match step
    case Begin(t, k, e) => SafeBegun(s, t, k, e);
    case Put(t, victim) =>
      SafeAdded(s, t);
      if victim.Some? {
        var a := WithAdded(s, t);
        forall u | InPhase(a, u, Listed)
          ensures (a.sets[u].ticket.entry.installation, a.sets[u].ticket.key) !in DropOf(a, victim.value)
        {
          assert InPhase(s, u, Listed);
        }
        SafeEvicted(a, victim.value);
      }
    case Recheck(t) => SafeRechecked(s, t);
    case Withdraw(t) =>
      SafeEvicted(s, s.sets[t].ticket.key);
      SafeLeft(WithEvicted(s, s.sets[t].ticket.key), t);
    case SweepBegin(t, i) => SafeSweepBegun(s, t, i);
    case SweepOne(t, k) =>
      SafeEvicted(s, k);
      SafeStruck(WithEvicted(s, k), t, k);
    case SweepEnd(t) => SafeSweepEnded(s, t);
    case Lapse(k) => SafeEvicted(s, k);
  }

  ghost predicate UndisturbedRun(s: Sys, steps: seq<Step>)
    decreases |steps|
  {
    steps != [] ==>
      Enabled(s, steps[0]) && Undisturbed(s, steps[0]) && UndisturbedRun(Next(s, steps[0]), steps[1..])
  }

  lemma {:induction false} SafeAlways(s: Sys, steps: seq<Step>)
    requires Safe(s) && UndisturbedRun(s, steps)
    ensures Legal(s, steps) && Safe(Exec(s, steps))
    decreases |steps|
  {
    if steps != [] {
      SafeKept(s, steps[0]);
      SafeAlways(Next(s, steps[0]), steps[1..]);
    }
  }

  /** Whenever nothing is in flight, every cached entry is indexed under its
      installation, and was started after that installation's last invalidation: no
      run in which waiting Sets keep their index entries leaves a stale entry behind. */
  lemma RestIsFreshAndIndexed(steps: seq<Step>, k: Key)
    requires UndisturbedRun(START, steps)
    ensures Legal(START, steps)
    ensures var s := Exec(START, steps);
            AtRest(s) && k in s.cache.entries && s.cache.entries[k].installation != "" ==>
              && IsIndexed(s.cache, s.cache.entries[k].installation, k)
              && k in s.owner && s.owner[k] in s.begun
              && s.begun[s.owner[k]].preGen == GenOf(s.cache, s.cache.entries[k].installation)
  {
    SafeAlways(START, steps);
    var s := Exec(START, steps);
    if AtRest(s) && k in s.cache.entries {
      RestIsSafe(s, k);
    }
  }

  lemma RestIsSafe(s: Sys, k: Key)
    requires Safe(s) && AtRest(s) && k in s.cache.entries
    ensures !Doomed(s, k) && EntrySafe(s, k)
  {
  }

  // ------------------------------------------------- when no Set is disturbed ----

  // A Set starts only while its key is not cached and no other Set of it is in flight.
  predicate Alone(s: Sys, step: Step) {
    step.Begin? ==>
      step.key !in s.cache.entries && forall t | t in s.sets :: s.sets[t].ticket.key != step.key
  }

  ghost predicate AloneRun(s: Sys, steps: seq<Step>)
    decreases |steps|
  {
    steps != [] ==> Enabled(s, steps[0]) && Alone(s, steps[0]) && AloneRun(Next(s, steps[0]), steps[1..])
  }

  ghost predicate OnePerKey(s: Sys) {
    && (forall t, u | t in s.sets && u in s.sets && t != u :: s.sets[t].ticket.key != s.sets[u].ticket.key)
    && (forall t | t in s.sets && s.sets[t].phase == Listed :: s.sets[t].ticket.key !in s.cache.entries)
  }

  // A waiting Set's key is not cached, so nothing can drop that key but its own recheck.
  lemma AloneUndisturbed(s: Sys, step: Step)
    requires Books(s) && OnePerKey(s) && Enabled(s, step)
    ensures Undisturbed(s, step)
  {
  }

  lemma OnePerKeyFewer(s: Sys, s': Sys)
    requires OnePerKey(s)
    requires forall t | t in s'.sets :: t in s.sets && s'.sets[t].ticket == s.sets[t].ticket
    requires forall t | InPhase(s', t, Listed) :: InPhase(s, t, Listed)
    requires forall k | k in s'.cache.entries && k !in s.cache.entries ::
               forall t | InPhase(s', t, Listed) :: s'.sets[t].ticket.key != k
    ensures OnePerKey(s')
  {
    forall t | t in s'.sets && s'.sets[t].phase == Listed ensures s'.sets[t].ticket.key !in s'.cache.entries {
      assert InPhase(s', t, Listed);
    }
  }

  lemma OnePerKeyBegun(s: Sys, t: Id, k: Key, e: Entry)
    requires Books(s) && OnePerKey(s) && Enabled(s, Begin(t, k, e)) && Alone(s, Begin(t, k, e))
    ensures OnePerKey(Next(s, Begin(t, k, e)))
  {
    assert forall u | u in s.sets :: FlightRight(s, u) && u in s.begun;
  }

  lemma OnePerKeyAdded(s: Sys, t: Id)
    requires OnePerKey(s) && InPhase(s, t, Listed)
    ensures OnePerKey(WithAdded(s, t))
  {
    OnePerKeyFewer(s, WithAdded(s, t));
  }

  lemma OnePerKeyKept(s: Sys, step: Step)
    requires Books(s) && OnePerKey(s) && Enabled(s, step) && Alone(s, step)
    ensures OnePerKey(Next(s, step))
  {
    var s' := Next(s, step);
    match step
    case Begin(t, k, e) => OnePerKeyBegun(s, t, k, e);
    case Put(t, victim) =>
      OnePerKeyAdded(s, t);
      if victim.Some? { OnePerKeyFewer(WithAdded(s, t), s'); }
    case Recheck(t) => OnePerKeyFewer(s, s');
    case Withdraw(t) => OnePerKeyFewer(s, s');
    case SweepBegin(t, i) => OnePerKeyFewer(s, s');
    case SweepOne(t, k) => OnePerKeyFewer(s, s');
    case SweepEnd(t) => OnePerKeyFewer(s, s');
    case Lapse(k) => OnePerKeyFewer(s, s');
  }

  lemma {:induction false} AloneRunUndisturbed(s: Sys, steps: seq<Step>)
    requires Books(s) && OnePerKey(s) && AloneRun(s, steps)
    ensures UndisturbedRun(s, steps)
    decreases |steps|
  {
    if steps != [] {
      BooksKept(s, steps[0]);
      AloneUndisturbed(s, steps[0]);
      OnePerKeyKept(s, steps[0]);
      AloneRunUndisturbed(Next(s, steps[0]), steps[1..]);
    }
  }

  /** If a Set starts only while its key is absent and no other Set of that key is in
      flight, every rest is indexed and fresh, whatever interleaves. */
  lemma AloneRestIsFreshAndIndexed(steps: seq<Step>, k: Key)
    requires AloneRun(START, steps)
    ensures Legal(START, steps)
    ensures var s := Exec(START, steps);
            AtRest(s) && k in s.cache.entries && s.cache.entries[k].installation != "" ==>
              && IsIndexed(s.cache, s.cache.entries[k].installation, k)
              && k in s.owner && s.owner[k] in s.begun
              && s.begun[s.owner[k]].preGen == GenOf(s.cache, s.cache.entries[k].installation)
  {
    AloneRunUndisturbed(START, steps);
    RestIsFreshAndIndexed(steps, k);
  }

  // Set 2 refreshes the key Set 1 cached; the old entry lapses between Set 2's index
  // step and its insertion, and its callback takes Set 2's index entry along.  The
  // invalidation that follows finds nothing to remove.
  function LostEntry(k: Key, e: Entry): seq<Step> {
    [Begin(1, k, e), Put(1, None), Recheck(1), Begin(2, k, e), Lapse(k), Put(2, None), Recheck(2),
     SweepBegin(3, e.installation), SweepEnd(3)]
  }

  lemma {:induction false} Steps3(s: Sys, a: Step, b: Step, c: Step, rest: seq<Step>)
    requires Enabled(s, a) && Enabled(Next(s, a), b) && Enabled(Next(Next(s, a), b), c)
    requires Legal(Next(Next(Next(s, a), b), c), rest)
    ensures Legal(s, [a, b, c] + rest)
    ensures Exec(s, [a, b, c] + rest) == Exec(Next(Next(Next(s, a), b), c), rest)
  {
    var all := [a, b, c] + rest;
    var x, y := Next(s, a), Next(Next(s, a), b);
    assert all[1..] == [b, c] + rest && ([b, c] + rest)[1..] == [c] + rest && ([c] + rest)[1..] == rest;
    assert Legal(y, [c] + rest) && Exec(y, [c] + rest) == Exec(Next(y, c), rest);
    assert Legal(x, [b, c] + rest) && Exec(x, [b, c] + rest) == Exec(y, [c] + rest);
  }

  // Set 1 has cached the entry, and again Set 2.
  function Cached(k: Key, e: Entry): Sys {
    START.(cache := Cache(map[k := e], map[e.installation := {k}], map[]),
           begun := map[1 := Ticket(k, e, 0)], owner := map[k := 1])
  }

  function Unindexed(k: Key, e: Entry): Sys {
    START.(cache := Cache(map[k := e], map[], map[]), sets := map[2 := Flight(Added, Ticket(k, e, 0))],
           begun := map[1 := Ticket(k, e, 0), 2 := Ticket(k, e, 0)], owner := map[k := 2])
  }

  lemma FirstSet(k: Key, e: Entry)
    requires e.installation != ""
    ensures Legal(START, LostEntry(k, e)[..3]) && Exec(START, LostEntry(k, e)[..3]) == Cached(k, e)
  {
    var i := e.installation;
    assert Bucket(START.cache.index, i) + {k} == {k};
    var s1 := Next(START, Begin(1, k, e));
    assert s1.cache.index == map[i := {k}];
    var s2 := Next(s1, Put(1, None));
    var s3 := Next(s2, Recheck(1));
    assert s3 == Cached(k, e);
    Steps3(START, Begin(1, k, e), Put(1, None), Recheck(1), []);
    assert LostEntry(k, e)[..3] == [Begin(1, k, e), Put(1, None), Recheck(1)] + [];
  }

  lemma LapseInTheWindow(k: Key, e: Entry)
    requires e.installation != ""
    ensures Legal(Cached(k, e), LostEntry(k, e)[3..6]) && Exec(Cached(k, e), LostEntry(k, e)[3..6]) == Unindexed(k, e)
  {
    var i := e.installation;
    var s3 := Cached(k, e);
    assert Bucket(s3.cache.index, i) + {k} == {k};
    var s4 := Next(s3, Begin(2, k, e));
    assert s4.cache == s3.cache;
    assert s3.cache.index[i] - {k} == {};
    var s5 := Next(s4, Lapse(k));
    assert s5.cache.entries == map[] && s5.owner == map[];
    assert s5.cache.index == map[] && s5.cache.gen == map[];
    var s6 := Next(s5, Put(2, None));
    assert s6.cache.entries == map[k := e] && s6.cache.index == map[] && s6.cache.gen == map[];
    assert s6.begun == Unindexed(k, e).begun && s6.owner == map[k := 2];
    assert s6.sets == Unindexed(k, e).sets;
    Steps3(s3, Begin(2, k, e), Lapse(k), Put(2, None), []);
    assert LostEntry(k, e)[3..6] == [Begin(2, k, e), Lapse(k), Put(2, None)] + [];
  }

  lemma SweepFindsNothing(k: Key, e: Entry)
    requires e.installation != ""
    ensures Legal(Unindexed(k, e), LostEntry(k, e)[6..])
    ensures Exec(Unindexed(k, e), LostEntry(k, e)[6..])
         == Unindexed(k, e).(sets := map[], cache := Cache(map[k := e], map[], map[e.installation := 1]))
  {
    var i := e.installation;
    var s6 := Unindexed(k, e);
    var s7 := Next(s6, Recheck(2));
    assert s7.sets == map[];
    var s8 := Next(s7, SweepBegin(3, i));
    assert s8.cache.index == map[];
    var s9 := Next(s8, SweepEnd(3));
    assert s9.sweeps == map[];
    Steps3(s6, Recheck(2), SweepBegin(3, i), SweepEnd(3), []);
    assert LostEntry(k, e)[6..] == [Recheck(2), SweepBegin(3, i), SweepEnd(3)] + [];
  }

  lemma {:induction false} LegalJoin(s: Sys, a: seq<Step>, b: seq<Step>)
    requires Legal(s, a) && Legal(Exec(s, a), b)
    ensures Legal(s, a + b) && Exec(s, a + b) == Exec(Exec(s, a), b)
    decreases |a|
  {
    if a == [] {
      assert a + b == b;
    } else {
      assert (a + b)[1..] == a[1..] + b;
      LegalJoin(Next(s, a[0]), a[1..], b);
    }
  }

  /** Without that discipline the guarantee fails: a legal run comes to rest with an
      entry cached that an invalidation of its installation was meant to remove. */
  lemma {:induction false} UnindexedEntrySurvives(k: Key, e: Entry)
    requires e.installation != ""
    ensures Legal(START, LostEntry(k, e))
    ensures var s := Exec(START, LostEntry(k, e));
            && AtRest(s) && k in s.cache.entries && s.cache.entries[k] == e
            && !IsIndexed(s.cache, e.installation, k)
            && k in s.owner && s.owner[k] in s.begun
            && s.begun[s.owner[k]].preGen < GenOf(s.cache, e.installation)
  {
    var t := LostEntry(k, e);
    FirstSet(k, e);
    LapseInTheWindow(k, e);
    SweepFindsNothing(k, e);
    LegalJoin(START, t[..3], t[3..6]);
    LegalJoin(START, t[..3] + t[3..6], t[6..]);
    assert t == t[..3] + t[3..6] + t[6..];
  }

  // ------------------------------------------------------ what is left in place ----

  // Each key keeps one installation.
  ghost predicate HomeStep(step: Step, home: Key -> Inst) {
    step.Begin? ==> step.entry.installation == home(step.key)
  }

  ghost predicate HomeRun(s: Sys, steps: seq<Step>, home: Key -> Inst)
    decreases |steps|
  {
    steps != [] ==>
      Enabled(s, steps[0]) && HomeStep(steps[0], home) && HomeRun(Next(s, steps[0]), steps[1..], home)
  }

  // An index entry stands for a cached entry, or for a Set about to insert one.
  ghost predicate Backed(s: Sys, k: Key) {
    k in s.cache.entries || exists t | t in s.sets :: s.sets[t].phase == Listed && s.sets[t].ticket.key == k
  }

  ghost predicate Homed(s: Sys, home: Key -> Inst) {
    && (forall k | k in s.cache.entries :: s.cache.entries[k].installation == home(k))
    && (forall t | t in s.sets :: s.sets[t].ticket.entry.installation == home(s.sets[t].ticket.key))
    && (forall u, k | u in s.sweeps && k in s.sweeps[u].pending :: s.sweeps[u].installation == home(k))
    && (forall i, k | IsIndexed(s.cache, i, k) :: i == home(k) != "" && Backed(s, k))
  }

  lemma HomedEvicted(s: Sys, k: Key, home: Key -> Inst)
    requires Homed(s, home)
    ensures Homed(WithEvicted(s, k), home)
  {
    var s' := WithEvicted(s, k);
    forall i, m | IsIndexed(s'.cache, i, m) ensures i == home(m) != "" && Backed(s', m) {
      if k in s.cache.entries && home(k) != "" {
        DropFacts(s.cache.index, home(k), k, i, m);
      }
      assert IsIndexed(s.cache, i, m) && Backed(s, m);
      if t :| t in s.sets && s.sets[t].phase == Listed && s.sets[t].ticket.key == m {
        assert s'.sets[t] == s.sets[t];
      }
    }
  }

  lemma HomedBegun(s: Sys, t: Id, k: Key, e: Entry, home: Key -> Inst)
    requires Books(s) && Homed(s, home) && Enabled(s, Begin(t, k, e)) && e.installation == home(k)
    ensures Homed(Next(s, Begin(t, k, e)), home)
  {
    var s' := Next(s, Begin(t, k, e));
    assert forall u | u in s.sets :: FlightRight(s, u) && u in s.begun;
    forall i, m | IsIndexed(s'.cache, i, m) ensures i == home(m) != "" && Backed(s', m) {
      if m == k && i == e.installation {
        assert s'.sets[t].phase == Listed && s'.sets[t].ticket.key == k;
      } else {
        assert IsIndexed(s.cache, i, m);
        BackedKept(s, s', m);
      }
    }
  }

  lemma HomedAdded(s: Sys, t: Id, home: Key -> Inst)
    requires Homed(s, home) && InPhase(s, t, Listed)
    ensures Homed(WithAdded(s, t), home)
  {
    var a := WithAdded(s, t);
    forall i, m | IsIndexed(a.cache, i, m) ensures i == home(m) != "" && Backed(a, m) {
      assert IsIndexed(s.cache, i, m) && Backed(s, m);
      if u :| u in s.sets && s.sets[u].phase == Listed && s.sets[u].ticket.key == m && u != t {
        assert a.sets[u] == s.sets[u];
      }
    }
  }

  // A step that caches, lists and awaits no less, and indexes and sweeps no more.
  lemma HomedFewer(s: Sys, s': Sys, home: Key -> Inst)
    requires Homed(s, home)
    requires s'.cache.entries == s.cache.entries
    requires forall i, m | IsIndexed(s'.cache, i, m) :: IsIndexed(s.cache, i, m)
    requires forall t | t in s'.sets :: t in s.sets && s'.sets[t].ticket == s.sets[t].ticket
    requires forall t | InPhase(s, t, Listed) :: t in s'.sets && s'.sets[t] == s.sets[t]
    requires forall u, k | u in s'.sweeps && k in s'.sweeps[u].pending :: s'.sweeps[u].installation == home(k)
    ensures Homed(s', home)
  {
    forall i, m | IsIndexed(s'.cache, i, m) ensures i == home(m) != "" && Backed(s', m) {
      assert IsIndexed(s.cache, i, m);
      BackedKept(s, s', m);
    }
  }

  lemma HomedRechecked(s: Sys, t: Id, home: Key -> Inst)
    requires Homed(s, home) && Enabled(s, Recheck(t))
    ensures Homed(Next(s, Recheck(t)), home)
  {
    forall i, m | IsIndexed(Next(s, Recheck(t)).cache, i, m) ensures IsIndexed(s.cache, i, m) {
      DropFacts(s.cache.index, s.sets[t].ticket.entry.installation, s.sets[t].ticket.key, i, m);
    }
    HomedFewer(s, Next(s, Recheck(t)), home);
  }

  lemma HomedSweepBegun(s: Sys, t: Id, i: Inst, home: Key -> Inst)
    requires Homed(s, home) && Enabled(s, SweepBegin(t, i))
    ensures Homed(Next(s, SweepBegin(t, i)), home)
  {
    var s' := Next(s, SweepBegin(t, i));
    forall m | m in s'.sweeps[t].pending ensures i == home(m) { assert IsIndexed(s.cache, i, m); }
    forall j, m | IsIndexed(s'.cache, j, m) ensures IsIndexed(s.cache, j, m) { }
    HomedFewer(s, s', home);
  }

  lemma HomedKept(s: Sys, step: Step, home: Key -> Inst)
    requires Books(s) && Homed(s, home) && Enabled(s, step) && HomeStep(step, home)
    ensures Homed(Next(s, step), home)
  {
    match step
    case Begin(t, k, e) => HomedBegun(s, t, k, e, home);
    case Put(t, victim) =>
      HomedAdded(s, t, home);
      if victim.Some? { HomedEvicted(WithAdded(s, t), victim.value, home); }
    case Recheck(t) => HomedRechecked(s, t, home);
    case Withdraw(t) =>
      var e := WithEvicted(s, s.sets[t].ticket.key);
      HomedEvicted(s, s.sets[t].ticket.key, home);
      HomedFewer(e, Next(s, step), home);
    case SweepBegin(t, i) => HomedSweepBegun(s, t, i, home);
    case SweepOne(t, k) =>
      HomedEvicted(s, k, home);
      HomedFewer(WithEvicted(s, k), Next(s, step), home);
    case SweepEnd(t) => HomedFewer(s, Next(s, step), home);
    case Lapse(k) => HomedEvicted(s, k, home);
  }

  lemma BackedKept(s: Sys, s': Sys, k: Key)
    requires Backed(s, k) && s.cache.entries.Keys <= s'.cache.entries.Keys
    requires forall t | InPhase(s, t, Listed) :: t in s'.sets && s'.sets[t] == s.sets[t]
    ensures Backed(s', k)
  {
    if t :| t in s.sets && s.sets[t].phase == Listed && s.sets[t].ticket.key == k {
      assert InPhase(s, t, Listed);
    }
  }

  lemma {:induction false} HomedAlways(s: Sys, steps: seq<Step>, home: Key -> Inst)
    requires Books(s) && Homed(s, home) && HomeRun(s, steps, home)
    ensures Legal(s, steps) && Books(Exec(s, steps)) && Homed(Exec(s, steps), home)
    decreases |steps|
  {
    if steps != [] {
      BooksKept(s, steps[0]);
      HomedKept(s, steps[0], home);
      HomedAlways(Next(s, steps[0]), steps[1..], home);
    }
  }

  /** When each key keeps one installation: no removal an invalidation makes, in any
      interleaving, touches another installation's entry; and at rest the index lists
      nothing but cached entries, each under its own installation. */
  lemma InvalidationSparesOthers(steps: seq<Step>, home: Key -> Inst)
    requires HomeRun(START, steps, home)
    ensures Legal(START, steps)
    ensures var s := Exec(START, steps);
            && (forall t, k | Enabled(s, SweepOne(t, k)) :: SparesOthers(s, t, k))
            && (AtRest(s) ==> forall i, k | IsIndexed(s.cache, i, k) ::
                  k in s.cache.entries && s.cache.entries[k].installation == i)
  {
    HomedAlways(START, steps, home);
    HomedSpares(Exec(START, steps), home);
  }

  ghost predicate SparesOthers(s: Sys, t: Id, k: Key)
    requires Enabled(s, SweepOne(t, k))
  {
    forall m | m in s.cache.entries && s.cache.entries[m].installation != s.sweeps[t].installation ::
      m in Next(s, SweepOne(t, k)).cache.entries && Next(s, SweepOne(t, k)).cache.entries[m] == s.cache.entries[m]
  }

  lemma HomedSpares(s: Sys, home: Key -> Inst)
    requires Homed(s, home)
    ensures forall t, k | Enabled(s, SweepOne(t, k)) :: SparesOthers(s, t, k)
    ensures AtRest(s) ==> forall i, k | IsIndexed(s.cache, i, k) ::
              k in s.cache.entries && s.cache.entries[k].installation == i
  {
    if AtRest(s) {
      forall i, k | IsIndexed(s.cache, i, k) ensures k in s.cache.entries { assert Backed(s, k); }
    }
  }
}
