/** Which Sets of internal/auth/apikey_cache.go can end up unindexed: the exact condition, at
    any point of any interleaving, under which a Set that has not inserted yet may come to
    rest with its entry cached where no invalidation will find it. */
module LostSets {
  import opened Wrappers
  import opened InvalidationCache
  import opened CacheProtocol

  predicate BeginFree(steps: seq<Step>) { forall step | step in steps :: !step.Begin? }

  predicate Starts(step: Step) { step.Begin? || step.SweepBegin? }

  predicate Quiet(steps: seq<Step>) { forall step | step in steps :: !Starts(step) }

  // Set t has come to rest owning a cached entry its installation's bucket does not list.
  predicate Lost(s: Sys, t: Id, k: Key, i: Inst) {
    AtRest(s) && k in s.cache.entries && k in s.owner && s.owner[k] == t && !IsIndexed(s.cache, i, k)
  }

  // Some way of finishing what is in flight, evictions and invalidations allowed but no new
  // Set, loses t.
  ghost predicate CanBeLost(s: Sys, t: Id)
    requires t in s.sets
  {
    exists steps :: BeginFree(steps) && Legal(s, steps)
      && Lost(Exec(s, steps), t, s.sets[t].ticket.key, s.sets[t].ticket.entry.installation)
  }

  // The same without another invalidation.
  ghost predicate CanBeLostQuietly(s: Sys, t: Id)
    requires t in s.sets
  {
    exists steps :: Quiet(steps) && Legal(s, steps)
      && Lost(Exec(s, steps), t, s.sets[t].ticket.key, s.sets[t].ticket.entry.installation)
  }

  predicate Current(s: Sys, t: Id)
    requires t in s.sets
  {
    s.sets[t].ticket.preGen == GenOf(s.cache, s.sets[t].ticket.entry.installation)
  }

  predicate SetOf(s: Sys, t: Id, k: Key, i: Inst) {
    t in s.sets && s.sets[t].ticket.key == k && s.sets[t].ticket.entry.installation == i
  }

  predicate CachedUnder(s: Sys, k: Key, i: Inst) {
    k in s.cache.entries && s.cache.entries[k].installation == i
  }

  // Set u can still take the index entry of (k, i) along: by inserting an entry that is then
  // evicted, or by a recheck that fails.
  predicate CanDrop(s: Sys, u: Id, k: Key, i: Inst) {
    SetOf(s, u, k, i) && (s.sets[u].phase == Listed || (s.sets[u].phase == Added && !Current(s, u)))
  }

  predicate RivalCanDrop(s: Sys, t: Id, u: Id, k: Key, i: Inst) { u != t && CanDrop(s, u, k, i) }

  predicate HasRival(s: Sys, t: Id, k: Key, i: Inst) { exists u | u in s.sets :: RivalCanDrop(s, t, u, k, i) }

  // The index entry of t is gone, or something in sight can still take it along, and t
  // itself will pass its recheck.
  predicate Exposed(s: Sys, t: Id)
    requires t in s.sets
  {
    var k, i := s.sets[t].ticket.key, s.sets[t].ticket.entry.installation;
    Current(s, t) && (!IsIndexed(s.cache, i, k) || CachedUnder(s, k, i) || HasRival(s, t, k, i))
  }

  // ------------------------------------------------------------ an exposed Set can be lost ----

  // A waiting Set, its ticket current, its index entry gone.
  predicate Waits(s: Sys, t: Id, k: Key, i: Inst) {
    InPhase(s, t, Listed) && SetOf(s, t, k, i) && i != "" && Current(s, t) && !IsIndexed(s.cache, i, k)
  }

  // A run that starts with one step.
  lemma StepThen(s: Sys, step: Step, steps: seq<Step>)
    requires Enabled(s, step) && !Starts(step) && Quiet(steps) && Legal(Next(s, step), steps)
    ensures Quiet([step] + steps) && Legal(s, [step] + steps)
    ensures Exec(s, [step] + steps) == Exec(Next(s, step), steps)
  {
    assert ([step] + steps)[1..] == steps;
  }

  lemma DropsStayDropped(index: map<Inst, set<Key>>, j: Inst, m: Key, i: Inst, k: Key)
    requires k !in Bucket(index, i)
    ensures k !in Bucket(IndexDrop(index, j, m), i)
  {
    DropFacts(index, j, m, i, k);
  }

  // Only a Set's index step lists anything, and only an invalidation's first moves a
  // generation: other Sets and sweeps may do the rest of their steps past a waiting Set.
  lemma OthersKeepWaiting(s: Sys, step: Step, t: Id, k: Key, i: Inst)
    requires Waits(s, t, k, i) && Enabled(s, step) && !Starts(step)
    requires (step.Put? || step.Recheck? || step.Withdraw?) ==> step.id != t
    ensures Waits(Next(s, step), t, k, i)
  {
    match step
    case Put(u, victim) =>
      PutIsInsert(s, u, victim);
      if victim.Some? && victim.value in s.cache.entries {
        DropsStayDropped(s.cache.index, s.cache.entries[victim.value].installation, victim.value, i, k);
      }
    case Recheck(u) =>
      DropsStayDropped(s.cache.index, s.sets[u].ticket.entry.installation, s.sets[u].ticket.key, i, k);
    case Withdraw(u) =>
      var m := s.sets[u].ticket.key;
      if m in s.cache.entries { DropsStayDropped(s.cache.index, s.cache.entries[m].installation, m, i, k); }
    case SweepOne(u, m) =>
      if m in s.cache.entries { DropsStayDropped(s.cache.index, s.cache.entries[m].installation, m, i, k); }
    case SweepEnd(u) =>
    case Lapse(m) => DropsStayDropped(s.cache.index, s.cache.entries[m].installation, m, i, k);
  }

  function PhaseSteps(f: Flight): nat {
    match f.phase case Listed => 3 case Added => 2 case Stale => 1
  }

  // The next step that brings Set u nearer its return.
  function NextOf(s: Sys, u: Id): Step
    requires u in s.sets
  {
    match s.sets[u].phase case Listed => Put(u, None) case Added => Recheck(u) case Stale => Withdraw(u)
  }

  lemma SetAdvances(s: Sys, u: Id)
    requires u in s.sets
    ensures Enabled(s, NextOf(s, u))
    ensures var d := Next(s, NextOf(s, u));
            && d.sweeps == s.sweeps
            && (d.sets == s.sets - {u}
                || (d.sets.Keys == s.sets.Keys && PhaseSteps(d.sets[u]) < PhaseSteps(s.sets[u])))
  { }

  // Finish Set u alone.
  lemma {:induction false} FinishSet(s: Sys, u: Id, t: Id, k: Key, i: Inst) returns (steps: seq<Step>)
    requires Waits(s, t, k, i) && u in s.sets && u != t
    ensures Quiet(steps) && Legal(s, steps)
    ensures var d := Exec(s, steps); Waits(d, t, k, i) && d.sets.Keys == s.sets.Keys - {u} && d.sweeps == s.sweeps
    decreases PhaseSteps(s.sets[u])
  {
    var step := NextOf(s, u);
    SetAdvances(s, u);
    OthersKeepWaiting(s, step, t, k, i);
    steps := [];
    if u in Next(s, step).sets {
      steps := FinishSet(Next(s, step), u, t, k, i);
    }
    StepThen(s, step, steps);
    steps := [step] + steps;
  }

  // Finish sweep u alone.
  lemma {:induction false} FinishSweep(s: Sys, u: Id, t: Id, k: Key, i: Inst) returns (steps: seq<Step>)
    requires Waits(s, t, k, i) && u in s.sweeps
    ensures Quiet(steps) && Legal(s, steps)
    ensures var d := Exec(s, steps); Waits(d, t, k, i) && d.sets == s.sets && d.sweeps.Keys == s.sweeps.Keys - {u}
    decreases |s.sweeps[u].pending|
  {
    steps := [];
    var step := SweepEnd(u);
    if s.sweeps[u].pending != {} {
      var m :| m in s.sweeps[u].pending;
      step := SweepOne(u, m);
      OthersKeepWaiting(s, step, t, k, i);
      steps := FinishSweep(Next(s, step), u, t, k, i);
    } else {
      OthersKeepWaiting(s, step, t, k, i);
    }
    StepThen(s, step, steps);
    steps := [step] + steps;
  }

  // Finish everything but t.
  lemma {:induction false} FinishOthers(s: Sys, t: Id, k: Key, i: Inst) returns (steps: seq<Step>)
    requires Waits(s, t, k, i)
    ensures Quiet(steps) && Legal(s, steps)
    ensures var d := Exec(s, steps); Waits(d, t, k, i) && d.sets.Keys == {t} && d.sweeps == map[]
    decreases |s.sets.Keys| + |s.sweeps.Keys|
  {
    steps := [];
    if u :| (u in s.sets && u != t) || u in s.sweeps {
      var first := FinishOne(s, u, t, k, i);
      hide Waits, Legal, Exec;
      var rest := FinishOthers(Exec(s, first), t, k, i);
      LegalJoin(s, first, rest);
      steps := first + rest;
    } else {
      assert s.sets.Keys == {t};
    }
  }

  lemma FinishOne(s: Sys, u: Id, t: Id, k: Key, i: Inst) returns (steps: seq<Step>)
    requires Waits(s, t, k, i) && ((u in s.sets && u != t) || u in s.sweeps)
    ensures Quiet(steps) && Legal(s, steps) && Waits(Exec(s, steps), t, k, i)
    ensures var d := Exec(s, steps); |d.sets.Keys| + |d.sweeps.Keys| < |s.sets.Keys| + |s.sweeps.Keys|
  {
    if u in s.sets && u != t {
      steps := FinishSet(s, u, t, k, i);
    } else {
      steps := FinishSweep(s, u, t, k, i);
    }
  }

  lemma LastTwoSteps(s: Sys, t: Id, k: Key, i: Inst) returns (steps: seq<Step>)
    requires Waits(s, t, k, i) && s.sets.Keys == {t} && s.sweeps == map[]
    ensures Quiet(steps) && Legal(s, steps) && Lost(Exec(s, steps), t, k, i)
  {
    var added := Next(s, Put(t, None));
    var done := Next(added, Recheck(t));
    assert done.sets == map[];
    StepThen(added, Recheck(t), []);
    StepThen(s, Put(t, None), [Recheck(t)] + []);
    steps := [Put(t, None)] + ([Recheck(t)] + []);
  }

  /** A waiting Set whose ticket is current and whose index entry is gone can be lost from
      any state whatever: everything else finishes first, then it inserts and passes its
      recheck. */
  lemma WaitingCanBeLost(s: Sys, t: Id, k: Key, i: Inst)
    requires Waits(s, t, k, i)
    ensures CanBeLostQuietly(s, t)
  {
    var first := FinishOthers(s, t, k, i);
    var rest := LastTwoSteps(Exec(s, first), t, k, i);
    LegalJoin(s, first, rest);
    assert Quiet(first + rest);
  }

  lemma LostAfterStep(s: Sys, step: Step, t: Id)
    requires t in s.sets && Enabled(s, step) && !Starts(step) && t in Next(s, step).sets
    requires Next(s, step).sets[t] == s.sets[t] && CanBeLostQuietly(Next(s, step), t)
    ensures CanBeLostQuietly(s, t)
  {
    var d := Next(s, step);
    var k, i := s.sets[t].ticket.key, s.sets[t].ticket.entry.installation;
    var steps :| Quiet(steps) && Legal(d, steps) && Lost(Exec(d, steps), t, k, i);
    StepThen(s, step, steps);
  }

  lemma CachedCanBeLost(s: Sys, t: Id, k: Key, i: Inst)
    requires InPhase(s, t, Listed) && SetOf(s, t, k, i) && i != "" && Current(s, t) && CachedUnder(s, k, i)
    ensures CanBeLostQuietly(s, t)
  {
    DropFacts(s.cache.index, i, k, i, k);
    WaitingCanBeLost(Next(s, Lapse(k)), t, k, i);
    LostAfterStep(s, Lapse(k), t);
  }

  lemma RivalledCanBeLost(s: Sys, t: Id, k: Key, i: Inst, u: Id)
    requires InPhase(s, t, Listed) && SetOf(s, t, k, i) && i != "" && Current(s, t) && RivalCanDrop(s, t, u, k, i)
    ensures CanBeLostQuietly(s, t)
  {
    if s.sets[u].phase == Listed {
      CachedCanBeLost(Next(s, Put(u, None)), t, k, i);
      LostAfterStep(s, Put(u, None), t);
    } else {
      DropFacts(s.cache.index, i, k, i, k);
      WaitingCanBeLost(Next(s, Recheck(u)), t, k, i);
      LostAfterStep(s, Recheck(u), t);
    }
  }

  // --------------------------------------------------------- nothing else can lose one ----

  // The index entry is in place and nothing in flight takes it along without the entry.
  predicate Held(s: Sys, t: Id, k: Key, i: Inst, g: nat) {
    GenOf(s.cache, i) == g && IsIndexed(s.cache, i, k) && !HasRival(s, t, k, i)
  }

  // What keeps Set t of (k, i), drawn at generation g, from being lost.
  ghost predicate Guarded(s: Sys, t: Id, k: Key, i: Inst, g: nat) {
    && t in s.begun && s.begun[t].key == k && s.begun[t].entry.installation == i && s.begun[t].preGen == g
    && (InPhase(s, t, Listed) ==> GenOf(s.cache, i) != g || (Held(s, t, k, i, g) && !CachedUnder(s, k, i)))
    && (!InPhase(s, t, Listed) && k in s.owner && s.owner[k] == t ==> Doomed(s, k) || Held(s, t, k, i, g))
  }

  lemma GuardedEvicted(s: Sys, m: Key, t: Id, k: Key, i: Inst, g: nat)
    requires Guarded(s, t, k, i, g) && Books(s)
    ensures Guarded(WithEvicted(s, m), t, k, i, g)
  {
    var d := WithEvicted(s, m);
    if m in s.cache.entries { DropFacts(s.cache.index, s.cache.entries[m].installation, m, i, k); }
    if !InPhase(s, t, Listed) && k in d.owner && d.owner[k] == t {
      DoomedElsewhere(s, d, k);
    }
  }

  lemma GuardedAdded(s: Sys, u: Id, t: Id, k: Key, i: Inst, g: nat)
    requires Guarded(s, t, k, i, g) && Books(s) && InPhase(s, u, Listed) && i != ""
    ensures Guarded(WithAdded(s, u), t, k, i, g)
  {
    var d := WithAdded(s, u);
    assert FlightRight(s, u);
    assert forall r | RivalCanDrop(d, t, r, k, i) :: RivalCanDrop(s, t, r, k, i) || r == u;
    if u != t && !InPhase(s, t, Listed) && k in d.owner && d.owner[k] == t && Doomed(s, k) {
      if f :| f in s.sets && s.sets[f].phase == Stale && s.sets[f].ticket.key == k {
        assert d.sets[f] == s.sets[f];
      }
    }
  }

  lemma GuardedRechecked(s: Sys, u: Id, t: Id, k: Key, i: Inst, g: nat)
    requires Guarded(s, t, k, i, g) && Books(s) && Enabled(s, Recheck(u))
    ensures Guarded(Next(s, Recheck(u)), t, k, i, g)
  {
    var d := Next(s, Recheck(u));
    assert FlightRight(s, u);
    DropFacts(s.cache.index, s.sets[u].ticket.entry.installation, s.sets[u].ticket.key, i, k);
    if k in s.owner && s.owner[k] == t && !InPhase(s, t, Listed) {
      assert OwnedRightly(s, k);
      if Doomed(s, k) { DoomedRechecked(s, u, k); }
    }
  }

  lemma DoomedRechecked(s: Sys, u: Id, k: Key)
    requires Books(s) && Doomed(s, k) && Enabled(s, Recheck(u)) && k in s.owner
    ensures Doomed(Next(s, Recheck(u)), k)
  {
    var d := Next(s, Recheck(u));
    assert FlightRight(s, u) && OwnedRightly(s, k);
    if f :| f in s.sets && s.sets[f].phase == Stale && s.sets[f].ticket.key == k {
      assert d.sets[f] == s.sets[f];
    } else if s.owner[k] == u && d.sets != s.sets - {u} {
      assert d.sets[u].phase == Stale;
    }
  }

  lemma GuardedSweepBegun(s: Sys, u: Id, j: Inst, t: Id, k: Key, i: Inst, g: nat)
    requires Guarded(s, t, k, i, g) && Books(s) && Enabled(s, SweepBegin(u, j))
    ensures Guarded(Next(s, SweepBegin(u, j)), t, k, i, g)
  {
    var d := Next(s, SweepBegin(u, j));
    assert TicketRight(s, t);
    if !InPhase(s, t, Listed) && k in s.owner && s.owner[k] == t {
      assert OwnedRightly(s, k);
      if InPhase(s, t, Added) { assert FlightRight(s, t); }
      if v :| v in s.sweeps && k in s.sweeps[v].pending { assert d.sweeps[v] == s.sweeps[v]; }
      if j == i && IsIndexed(s.cache, i, k) { assert k in d.sweeps[u].pending; }
    }
  }

  // A sweep strikes a key that is no longer cached off its list, or ends.
  lemma GuardedStruck(s: Sys, d: Sys, t: Id, k: Key, i: Inst, g: nat)
    requires Guarded(s, t, k, i, g) && d == s.(sweeps := d.sweeps)
    requires forall m | m in s.owner && (exists u | u in s.sweeps :: m in s.sweeps[u].pending) ::
               exists u | u in d.sweeps :: m in d.sweeps[u].pending
    ensures Guarded(d, t, k, i, g)
  { }

  // A withdrawing Set leaves; its key is no longer cached.
  lemma GuardedLeft(s: Sys, u: Id, t: Id, k: Key, i: Inst, g: nat)
    requires Guarded(s, t, k, i, g) && InPhase(s, u, Stale) && s.sets[u].ticket.key !in s.owner
    ensures Guarded(s.(sets := s.sets - {u}), t, k, i, g)
  {
    var d := s.(sets := s.sets - {u});
    if f :| f in s.sets && s.sets[f].phase == Stale && s.sets[f].ticket.key == k {
      if k in s.owner { assert d.sets[f] == s.sets[f]; }
    }
  }

  lemma GuardedKept(s: Sys, step: Step, t: Id, k: Key, i: Inst, g: nat)
    requires Guarded(s, t, k, i, g) && Books(s) && i != "" && Enabled(s, step) && !step.Begin?
    ensures Guarded(Next(s, step), t, k, i, g)
  {
    hide Guarded, Books;
    match step
    case Put(u, victim) =>
      GuardedAdded(s, u, t, k, i, g);
      BooksAdded(s, u);
      if victim.Some? { GuardedEvicted(WithAdded(s, u), victim.value, t, k, i, g); }
    case Recheck(u) => GuardedRechecked(s, u, t, k, i, g);
    case Withdraw(u) =>
      GuardedEvicted(s, s.sets[u].ticket.key, t, k, i, g);
      GuardedLeft(WithEvicted(s, s.sets[u].ticket.key), u, t, k, i, g);
    case SweepBegin(u, j) => GuardedSweepBegun(s, u, j, t, k, i, g);
    case SweepOne(u, m) =>
      GuardedEvicted(s, m, t, k, i, g);
      var e, d := WithEvicted(s, m), Next(s, step);
      forall n | n in e.owner && (exists w | w in e.sweeps :: n in e.sweeps[w].pending)
        ensures exists w | w in d.sweeps :: n in d.sweeps[w].pending
      {
        var w :| w in e.sweeps && n in e.sweeps[w].pending;
        assert n in d.sweeps[w].pending;
      }
      GuardedStruck(e, d, t, k, i, g);
    case SweepEnd(u) =>
      var d := Next(s, step);
      forall n | n in s.owner && (exists w | w in s.sweeps :: n in s.sweeps[w].pending)
        ensures exists w | w in d.sweeps :: n in d.sweeps[w].pending
      {
        var w :| w in s.sweeps && n in s.sweeps[w].pending;
        assert n in d.sweeps[w].pending;
      }
      GuardedStruck(s, d, t, k, i, g);
    case Lapse(m) => GuardedEvicted(s, m, t, k, i, g);
  }

  lemma {:induction false} GuardedNeverLost(s: Sys, steps: seq<Step>, t: Id, k: Key, i: Inst, g: nat)
    requires Guarded(s, t, k, i, g) && Books(s) && i != "" && BeginFree(steps) && Legal(s, steps)
    ensures !Lost(Exec(s, steps), t, k, i)
    decreases |steps|
  {
    if steps != [] {
      assert steps[0] in steps && BeginFree(steps[1..]);
      GuardedKept(s, steps[0], t, k, i, g);
      BooksKept(s, steps[0]);
      GuardedNeverLost(Next(s, steps[0]), steps[1..], t, k, i, g);
    }
  }

  // --------------------------------------------------------------- the exact condition ----

  /** A Set that has not inserted yet can come to rest with its entry cached and unlisted
      if and only if its ticket is current and its index entry is gone, or hangs on
      something that can still be dropped first: an entry cached at that key, or another
      Set of the same key and installation about to insert or about to fail. */
  lemma CanBeLostExactlyWhen(s: Sys, t: Id)
    requires Books(s) && InPhase(s, t, Listed) && s.sets[t].ticket.entry.installation != ""
    ensures CanBeLost(s, t) <==> Exposed(s, t)
    ensures CanBeLostQuietly(s, t) <==> Exposed(s, t)
  {
    assert forall steps :: Quiet(steps) ==> BeginFree(steps);
    var k, i, g := s.sets[t].ticket.key, s.sets[t].ticket.entry.installation, s.sets[t].ticket.preGen;
    assert FlightRight(s, t);
    if Exposed(s, t) {
      if !IsIndexed(s.cache, i, k) {
        WaitingCanBeLost(s, t, k, i);
      } else if CachedUnder(s, k, i) {
        CachedCanBeLost(s, t, k, i);
      } else {
        var u :| u in s.sets && RivalCanDrop(s, t, u, k, i);
        RivalledCanBeLost(s, t, k, i, u);
      }
    } else {
      assert Guarded(s, t, k, i, g);
      forall steps | BeginFree(steps) && Legal(s, steps) ensures !Lost(Exec(s, steps), t, k, i) {
        GuardedNeverLost(s, steps, t, k, i, g);
      }
    }
  }

  // The key is cached under the installation, or another Set of the two is under way that
  // may yet take the index entry along.
  predicate Overlapped(s: Sys, k: Key, i: Inst) {
    CachedUnder(s, k, i) || exists u | u in s.sets :: CanDrop(s, u, k, i)
  }

  /** A caller can tell before the call: the Set of k under i that starts now can be lost if
      and only if the key is already cached under i, or another Set of them is waiting to
      insert, or has inserted and been overtaken. */
  lemma NewSetCanBeLostExactlyWhen(s: Sys, t: Id, k: Key, e: Entry)
    requires Books(s) && Enabled(s, Begin(t, k, e)) && e.installation != ""
    ensures t in Next(s, Begin(t, k, e)).sets
    ensures CanBeLost(Next(s, Begin(t, k, e)), t) <==> Overlapped(s, k, e.installation)
    ensures CanBeLostQuietly(Next(s, Begin(t, k, e)), t) <==> Overlapped(s, k, e.installation)
  {
    var d, i := Next(s, Begin(t, k, e)), e.installation;
    BooksBegun(s, t, k, e);
    CanBeLostExactlyWhen(d, t);
    assert forall u | u in s.sets :: FlightRight(s, u) && u in s.begun;
    assert IsIndexed(d.cache, i, k) && Current(d, t);
    if u :| u in s.sets && CanDrop(s, u, k, i) {
      assert RivalCanDrop(d, t, u, k, i);
    }
    if u :| u in d.sets && RivalCanDrop(d, t, u, k, i) {
      assert CanDrop(s, u, k, i) && d.sets[u] == s.sets[u];
    }
  }

  /** An entry so lost outlives an invalidation of its installation. */
  lemma LostOutlivesInvalidation(s: Sys, t: Id, k: Key, i: Inst)
    requires Lost(s, t, k, i) && i != ""
    ensures var c := InvalidateAlone(s.cache, i); k in c.entries && c.entries[k] == s.cache.entries[k]
  { }

  // ------------------------------------------------------ runs in which no Set overlaps ----

  ghost predicate Apart(s: Sys, step: Step) {
    step.Begin? && step.entry.installation != "" ==> !Overlapped(s, step.key, step.entry.installation)
  }

  ghost predicate ApartRun(s: Sys, steps: seq<Step>)
    decreases |steps|
  {
    steps != [] ==> Enabled(s, steps[0]) && Apart(s, steps[0]) && ApartRun(Next(s, steps[0]), steps[1..])
  }

  ghost predicate GuardedTicket(s: Sys, t: Id)
    requires t in s.begun
  {
    s.begun[t].entry.installation != "" ==>
      Guarded(s, t, s.begun[t].key, s.begun[t].entry.installation, s.begun[t].preGen)
  }

  ghost predicate AllGuarded(s: Sys) { forall t | t in s.begun :: GuardedTicket(s, t) }

  lemma NewSetIsGuarded(s: Sys, t: Id, k: Key, e: Entry)
    requires Books(s) && Enabled(s, Begin(t, k, e)) && Apart(s, Begin(t, k, e)) && e.installation != ""
    ensures Guarded(Next(s, Begin(t, k, e)), t, k, e.installation, GenOf(s.cache, e.installation))
  {
    var d, i := Next(s, Begin(t, k, e)), e.installation;
    assert IsIndexed(d.cache, i, k);
    assert forall u | u != t :: CanDrop(d, u, k, i) <==> CanDrop(s, u, k, i);
  }

  // A Set that overlaps nothing disturbs no guarded one.
  lemma GuardedPastBegin(s: Sys, u: Id, m: Key, e: Entry, t: Id, k: Key, i: Inst, g: nat)
    requires Guarded(s, t, k, i, g) && Books(s) && Enabled(s, Begin(u, m, e)) && Apart(s, Begin(u, m, e)) && i != ""
    ensures Guarded(Next(s, Begin(u, m, e)), t, k, i, g)
  {
    var d := Next(s, Begin(u, m, e));
    assert forall f | f in s.sets :: FlightRight(s, f) && f in s.begun && d.sets[f] == s.sets[f];
    assert IsIndexed(s.cache, i, k) ==> IsIndexed(d.cache, i, k);
    if InPhase(s, t, Listed) { assert SetOf(s, t, k, i); }
    if k in s.owner && s.owner[k] == t { assert OwnedRightly(s, k); }
    assert forall f | RivalCanDrop(d, t, f, k, i) && f != u :: RivalCanDrop(s, t, f, k, i);
    if RivalCanDrop(d, t, u, k, i) { assert !Overlapped(s, k, i); }
    if Doomed(s, k) && k in s.owner { DoomedPastBegin(s, u, m, e, k); }
  }

  lemma DoomedPastBegin(s: Sys, u: Id, m: Key, e: Entry, k: Key)
    requires Books(s) && Enabled(s, Begin(u, m, e)) && Doomed(s, k)
    ensures Doomed(Next(s, Begin(u, m, e)), k)
  {
    var d := Next(s, Begin(u, m, e));
    assert forall f | f in s.sets :: FlightRight(s, f) && d.sets[f] == s.sets[f];
  }

  lemma AllGuardedKept(s: Sys, step: Step)
    requires Books(s) && AllGuarded(s) && Enabled(s, step) && Apart(s, step)
    ensures AllGuarded(Next(s, step))
  {
    hide Guarded, Books, Overlapped;
    var d := Next(s, step);
    forall t | t in d.begun ensures GuardedTicket(d, t) {
      var ticket := d.begun[t];
      var i := ticket.entry.installation;
      if i != "" {
        if step.Begin? && step.id == t {
          NewSetIsGuarded(s, t, step.key, step.entry);
        } else {
          assert GuardedTicket(s, t);
          if step.Begin? {
            GuardedPastBegin(s, step.id, step.key, step.entry, t, ticket.key, i, ticket.preGen);
          } else {
            GuardedKept(s, step, t, ticket.key, i, ticket.preGen);
          }
        }
      }
    }
  }

  lemma {:induction false} AllGuardedAlways(s: Sys, steps: seq<Step>)
    requires Books(s) && AllGuarded(s) && ApartRun(s, steps)
    ensures Legal(s, steps) && Books(Exec(s, steps)) && AllGuarded(Exec(s, steps))
    decreases |steps|
  {
    if steps != [] {
      AllGuardedKept(s, steps[0]);
      BooksKept(s, steps[0]);
      AllGuardedAlways(Next(s, steps[0]), steps[1..]);
    }
  }

  /** If no Set starts over a cached entry of its key and installation, nor over another
      Set of them that is waiting or overtaken, every rest is indexed and fresh.  By
      NewSetCanBeLostExactlyWhen no wider discipline on starting Sets would do. */
  lemma ApartRestIsFreshAndIndexed(steps: seq<Step>, k: Key)
    requires ApartRun(START, steps)
    ensures Legal(START, steps)
    ensures var s := Exec(START, steps);
            AtRest(s) && k in s.cache.entries && s.cache.entries[k].installation != "" ==>
              && IsIndexed(s.cache, s.cache.entries[k].installation, k)
              && k in s.owner && s.owner[k] in s.begun
              && s.begun[s.owner[k]].preGen == GenOf(s.cache, s.cache.entries[k].installation)
  {
    AllGuardedAlways(START, steps);
    var s := Exec(START, steps);
    if AtRest(s) && k in s.cache.entries && s.cache.entries[k].installation != "" {
      assert OwnedRightly(s, k);
      assert GuardedTicket(s, s.owner[k]);
    }
  }

  /** Any run that comes to a Set that does overlap has a continuation, in which nothing else
      starts, to a rest with that Set's entry cached, unlisted, and kept by an invalidation. */
  lemma OverlapLosesAnEntry(steps: seq<Step>, t: Id, k: Key, e: Entry) returns (more: seq<Step>)
    requires Legal(START, steps) && Enabled(Exec(START, steps), Begin(t, k, e)) && e.installation != ""
    requires Overlapped(Exec(START, steps), k, e.installation)
    ensures Quiet(more) && Legal(START, steps + ([Begin(t, k, e)] + more))
    ensures var d := Exec(START, steps + ([Begin(t, k, e)] + more));
            Lost(d, t, k, e.installation) && k in InvalidateAlone(d.cache, e.installation).entries
  {
    var s := Exec(START, steps);
    BooksAlways(START, steps);
    NewSetCanBeLostExactlyWhen(s, t, k, e);
    var d := Next(s, Begin(t, k, e));
    more :| Quiet(more) && Legal(d, more) && Lost(Exec(d, more), t, k, e.installation);
    assert ([Begin(t, k, e)] + more)[1..] == more;
    LegalJoin(START, steps, [Begin(t, k, e)] + more);
  }

  // The discipline of AloneRestIsFreshAndIndexed is a special case.
  lemma AloneIsApart(s: Sys, step: Step)
    requires Alone(s, step)
    ensures Apart(s, step)
  { }
}
