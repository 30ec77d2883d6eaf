/** The per-user cluster-list cache of internal/auth/user_cluster_cache.go.

    Its cached values carry no installation, so a second map, installationByUser, tells
    the eviction callback which bucket to look in.  The cache has the API-key cache's
    protocol and a machine of its own here.  Its handling of Sets overtaken by an
    invalidation never reads the second map, so that guarantee holds of every run.  While
    each user keeps one installation the two maps mirror each other besides, and the cache
    moves in lockstep with the API-key cache. */
module UserClusterCache {
  import opened Wrappers
  import opened InvalidationCache
  import opened CacheProtocol
  import LostSets

  datatype Cluster = Cluster(
    lists: map<Key, int>,              // the LRU's contents, by router user
    index: map<Inst, set<Key>>,        // byInstallation
    gen: map<Inst, nat>,               // invalidationGen
    byUser: map<Key, Inst>)            // installationByUser

  // ---------------------------------------------------------------- atomic steps ----

  function RemoveFromIndex(c: Cluster, i: Inst, u: Key): Cluster {
    c.(byUser := c.byUser - {u}, index := IndexDrop(c.index, i, u))
  }

  function EvictUser(c: Cluster, u: Key): Cluster {
    if u !in c.lists then c
    else
      var c := c.(lists := c.lists - {u});
      if u in c.byUser then RemoveFromIndex(c, c.byUser[u], u) else c
  }

  function IndexUser(c: Cluster, u: Key, i: Inst): Cluster {
    c.(index := IndexAdd(c.index, i, u), byUser := c.byUser[u := i])
  }

  function AddLists(c: Cluster, u: Key, lists: int, victim: Option<Key>): Cluster {
    var c := c.(lists := c.lists[u := lists]);
    if victim.Some? then EvictUser(c, victim.value) else c
  }

  function TakeUsers(c: Cluster, i: Inst): Cluster {
    c.(index := c.index - {i}, gen := c.gen[i := (if i in c.gen then c.gen[i] else 0) + 1],
       byUser := c.byUser - Bucket(c.index, i))
  }

  function ClusterGen(c: Cluster, i: Inst): nat {
    if i in c.gen then c.gen[i] else 0
  }

  // ------------------------------------------------------------------ the protocol ----

  // The cache with what is in flight, and the history no step reads.
  datatype ClusterSys = ClusterSys(
    cluster: Cluster,
    sets: map<Id, Flight>,
    sweeps: map<Id, Sweep>,
    begun: map<Id, Ticket>,
    owner: map<Key, Id>,
    withdrawn: set<Id>,
    used: set<Id>)                     // every id so far: none is used twice

  predicate ClusterInPhase(s: ClusterSys, t: Id, phase: Phase) {
    t in s.sets && s.sets[t].phase == phase
  }

  predicate ClusterEnabled(s: ClusterSys, step: Step) {
    match step
    case Begin(t, u, e) => t !in s.used && u != ""
    case Put(t, victim) =>
      ClusterInPhase(s, t, Listed)
      && (victim.Some? ==>
            victim.value in s.cluster.lists && victim.value != s.sets[t].ticket.key
              && s.sets[t].ticket.key !in s.cluster.lists)
    case Recheck(t) => ClusterInPhase(s, t, Added)
    case Withdraw(t) => ClusterInPhase(s, t, Stale)
    case SweepBegin(t, i) => t !in s.used && i != ""
    case SweepOne(t, u) => t in s.sweeps && u in s.sweeps[t].pending
    case SweepEnd(t) => t in s.sweeps && s.sweeps[t].pending == {}
    case Lapse(u) => u in s.cluster.lists
  }

  function Removed(s: ClusterSys, u: Key): ClusterSys {
    s.(cluster := EvictUser(s.cluster, u), owner := s.owner - {u})
  }

  function ClusterAdded(s: ClusterSys, t: Id, victim: Option<Key>): ClusterSys
    requires t in s.sets
  {
    var ticket := s.sets[t].ticket;
    s.(cluster := AddLists(s.cluster, ticket.key, ticket.entry.payload, victim),
       owner := s.owner[ticket.key := t] - (if victim.Some? then {victim.value} else {}),
       sets := if ticket.entry.installation == "" then s.sets - {t} else s.sets[t := Flight(Added, ticket)])
  }

  function ClusterNext(s: ClusterSys, step: Step): ClusterSys
    requires ClusterEnabled(s, step)
  {
    match step
    case Begin(t, u, e) =>
      var ticket := Ticket(u, e, if e.installation == "" then 0 else ClusterGen(s.cluster, e.installation));
      s.(cluster := if e.installation == "" then s.cluster else IndexUser(s.cluster, u, e.installation),
         sets := s.sets[t := Flight(Listed, ticket)], begun := s.begun[t := ticket], used := s.used + {t})
    case Put(t, victim) => ClusterAdded(s, t, victim)
    case Recheck(t) =>
      var ticket := s.sets[t].ticket;
      if ClusterGen(s.cluster, ticket.entry.installation) == ticket.preGen then s.(sets := s.sets - {t})
      else
        s.(cluster := RemoveFromIndex(s.cluster, ticket.entry.installation, ticket.key),
           sets := s.sets[t := Flight(Stale, ticket)],
           withdrawn := s.withdrawn + {t})
    case Withdraw(t) => Removed(s, s.sets[t].ticket.key).(sets := s.sets - {t})
    case SweepBegin(t, i) =>
      s.(cluster := TakeUsers(s.cluster, i), used := s.used + {t},
         sweeps := s.sweeps[t := Sweep(i, Bucket(s.cluster.index, i))])
    case SweepOne(t, u) =>
      Removed(s, u).(sweeps := s.sweeps[t := Sweep(s.sweeps[t].installation, s.sweeps[t].pending - {u})])
    case SweepEnd(t) => s.(sweeps := s.sweeps - {t})
    case Lapse(u) => Removed(s, u)
  }

  const EMPTY_CLUSTER := Cluster(map[], map[], map[], map[])

  const CLUSTER_START := ClusterSys(EMPTY_CLUSTER, map[], map[], map[], map[], {}, {})

  predicate ClusterLegal(s: ClusterSys, steps: seq<Step>)
    decreases |steps|
  {
    steps != [] ==> ClusterEnabled(s, steps[0]) && ClusterLegal(ClusterNext(s, steps[0]), steps[1..])
  }

  function ClusterExec(s: ClusterSys, steps: seq<Step>): ClusterSys
    requires ClusterLegal(s, steps)
    decreases |steps|
  {
    if steps == [] then s else ClusterExec(ClusterNext(s, steps[0]), steps[1..])
  }

  lemma {:induction false} ClusterExecSplit(s: ClusterSys, steps: seq<Step>, n: nat)
    requires ClusterLegal(s, steps) && n <= |steps|
    ensures ClusterLegal(s, steps[..n]) && ClusterLegal(ClusterExec(s, steps[..n]), steps[n..])
    ensures ClusterExec(s, steps) == ClusterExec(ClusterExec(s, steps[..n]), steps[n..])
    decreases |steps|
  {
    if n == 0 {
      assert steps[..0] == [] && steps[0..] == steps;
    } else {
      ClusterExecSplit(ClusterNext(s, steps[0]), steps[1..], n - 1);
      assert steps[..n][1..] == steps[1..][..n - 1] && steps[n..] == steps[1..][n - 1..];
    }
  }

  // The state before step n of a run from the start.
  function ClusterAt(steps: seq<Step>, n: nat): ClusterSys
    requires ClusterLegal(CLUSTER_START, steps) && n <= |steps|
  {
    ClusterExecSplit(CLUSTER_START, steps, n);
    ClusterExec(CLUSTER_START, steps[..n])
  }

  // ------------------------------------------------ overtaken Sets, in every run ----

  // s holds the same users, generations, Sets and history; its index is its own.
  ghost predicate Shadows(s: Sys, cs: ClusterSys) {
    && s.cache.entries.Keys == cs.cluster.lists.Keys && s.cache.gen == cs.cluster.gen
    && s.sets == cs.sets && s.begun == cs.begun && s.owner == cs.owner && s.withdrawn == cs.withdrawn
    && s.begun.Keys <= cs.used && s.sweeps.Keys <= cs.used
    && Books(s)
  }

  // The step of the API-key cache that does the same to those: a sweep's removal is just a
  // removal, and finding nothing to remove is no step at all.
  ghost function Shadowing(s: Sys, step: Step): (t: Sys)
    requires !step.SweepOne? && !step.SweepEnd? ==> Enabled(s, step)
  {
    match step
    case SweepOne(_, u) => if u in s.cache.entries then Next(s, Lapse(u)) else s
    case SweepEnd(_) => s
    case _ => Next(s, step)
  }

  lemma EvictUserFacts(c: Cluster, u: Key)
    ensures EvictUser(c, u).lists.Keys == c.lists.Keys - {u} && EvictUser(c, u).gen == c.gen
  { }

  lemma AddListsFacts(c: Cluster, u: Key, lists: int, victim: Option<Key>)
    ensures AddLists(c, u, lists, victim).lists.Keys
            == c.lists.Keys + {u} - (if victim.Some? then {victim.value} else {})
    ensures AddLists(c, u, lists, victim).gen == c.gen
  {
    if victim.Some? { EvictUserFacts(c.(lists := c.lists[u := lists]), victim.value); }
  }

  lemma RemovalIsShadowed(s: Sys, cs: ClusterSys, u: Key)
    requires Shadows(s, cs)
    ensures Shadows(if u in s.cache.entries then WithEvicted(s, u) else s, Removed(cs, u))
  {
    BooksEvicted(s, u);
    forall k | k in s.owner ensures k in s.cache.entries { assert OwnedRightly(s, k); }
    assert u !in s.cache.entries ==> cs.owner - {u} == cs.owner;
    hide Books, EvictUser;
    EvictUserFacts(cs.cluster, u);
  }

  lemma AdditionIsShadowed(s: Sys, cs: ClusterSys, t: Id, victim: Option<Key>)
    requires Shadows(s, cs) && ClusterEnabled(cs, Put(t, victim))
    ensures Enabled(s, Put(t, victim)) && Shadows(Next(s, Put(t, victim)), ClusterNext(cs, Put(t, victim)))
  {
    hide Books, AddLists, IndexDrop;
    BooksKept(s, Put(t, victim));
    AddListsFacts(cs.cluster, cs.sets[t].ticket.key, cs.sets[t].ticket.entry.payload, victim);
    var ticket, s' := s.sets[t].ticket, Next(s, Put(t, victim));
    PutIsInsert(s, t, victim);
    assert s'.cache.entries.Keys == s.cache.entries.Keys + {ticket.key} - (if victim.Some? then {victim.value} else {});
    assert s'.owner == s.owner[ticket.key := t] - (if victim.Some? then {victim.value} else {});
  }

  lemma BeginIsShadowed(s: Sys, cs: ClusterSys, t: Id, u: Key, e: Entry)
    requires Shadows(s, cs) && ClusterEnabled(cs, Begin(t, u, e))
    ensures Enabled(s, Begin(t, u, e)) && Shadows(Next(s, Begin(t, u, e)), ClusterNext(cs, Begin(t, u, e)))
  {
    hide Books, IndexAdd;
    BooksKept(s, Begin(t, u, e));
  }

  lemma RecheckIsShadowed(s: Sys, cs: ClusterSys, t: Id)
    requires Shadows(s, cs) && ClusterEnabled(cs, Recheck(t))
    ensures Enabled(s, Recheck(t)) && Shadows(Next(s, Recheck(t)), ClusterNext(cs, Recheck(t)))
  {
    hide Books, IndexDrop;
    BooksKept(s, Recheck(t));
  }

  lemma WithdrawalIsShadowed(s: Sys, cs: ClusterSys, t: Id)
    requires Shadows(s, cs) && ClusterEnabled(cs, Withdraw(t))
    ensures Enabled(s, Withdraw(t)) && Shadows(Next(s, Withdraw(t)), ClusterNext(cs, Withdraw(t)))
  {
    var k := s.sets[t].ticket.key;
    hide Books, EvictUser, IndexDrop;
    BooksKept(s, Withdraw(t));
    EvictUserFacts(cs.cluster, k);
    assert Next(s, Withdraw(t)).cache.entries.Keys == s.cache.entries.Keys - {k};
  }

  lemma SweepIsShadowed(s: Sys, cs: ClusterSys, t: Id, i: Inst)
    requires Shadows(s, cs) && ClusterEnabled(cs, SweepBegin(t, i))
    ensures Enabled(s, SweepBegin(t, i)) && Shadows(Next(s, SweepBegin(t, i)), ClusterNext(cs, SweepBegin(t, i)))
  {
    hide Books;
    BooksKept(s, SweepBegin(t, i));
  }

  lemma StepIsShadowed(s: Sys, cs: ClusterSys, step: Step)
    requires Shadows(s, cs) && ClusterEnabled(cs, step)
    ensures !step.SweepOne? && !step.SweepEnd? ==> Enabled(s, step)
    ensures Shadows(Shadowing(s, step), ClusterNext(cs, step))
  {
    hide Books, EvictUser, AddLists, Evict, IndexDrop, IndexAdd;
    match step
    case Begin(t, u, e) => BeginIsShadowed(s, cs, t, u, e);
    case Put(t, victim) => AdditionIsShadowed(s, cs, t, victim);
    case Recheck(t) => RecheckIsShadowed(s, cs, t);
    case Withdraw(t) => WithdrawalIsShadowed(s, cs, t);
    case SweepBegin(t, i) => SweepIsShadowed(s, cs, t, i);
    case SweepOne(t, u) => RemovalIsShadowed(s, cs, u);
    case SweepEnd(t) =>
    case Lapse(u) => RemovalIsShadowed(s, cs, u);
  }

  lemma {:induction false} RunIsShadowed(s: Sys, cs: ClusterSys, steps: seq<Step>) returns (end: Sys)
    requires Shadows(s, cs) && ClusterLegal(cs, steps)
    ensures Shadows(end, ClusterExec(cs, steps))
    decreases |steps|
  {
    end := s;
    if steps != [] {
      StepIsShadowed(s, cs, steps[0]);
      end := RunIsShadowed(Shadowing(s, steps[0]), ClusterNext(cs, steps[0]), steps[1..]);
    }
  }

  lemma ShadowAt(steps: seq<Step>, n: nat) returns (s: Sys)
    requires ClusterLegal(CLUSTER_START, steps) && n <= |steps|
    ensures Shadows(s, ClusterAt(steps, n))
  {
    ClusterExecSplit(CLUSTER_START, steps, n);
    s := RunIsShadowed(START, CLUSTER_START, steps[..n]);
  }

  lemma ClusterAtNext(steps: seq<Step>, n: nat)
    requires ClusterLegal(CLUSTER_START, steps) && n < |steps|
    ensures ClusterEnabled(ClusterAt(steps, n), steps[n])
    ensures ClusterAt(steps, n + 1) == ClusterNext(ClusterAt(steps, n), steps[n])
  {
    ClusterExecSplit(CLUSTER_START, steps, n);
    ClusterExecSplit(CLUSTER_START, steps, n + 1);
    ClusterExecSplit(CLUSTER_START, steps[..n + 1], n);
    assert steps[..n + 1][..n] == steps[..n] && steps[..n + 1][n..] == [steps[n]];
    assert steps[n..][0] == steps[n];
    var s := ClusterAt(steps, n);
    assert ClusterExec(s, [steps[n]]) == ClusterExec(ClusterNext(s, steps[n]), []);
  }

  // What never goes back along a run.
  ghost predicate ClusterLater(s: ClusterSys, s': ClusterSys) {
    && (forall t | t in s.begun :: t in s'.begun && s'.begun[t] == s.begun[t])
    && s.withdrawn <= s'.withdrawn
    && (forall i :: ClusterGen(s.cluster, i) <= ClusterGen(s'.cluster, i))
    && s.begun.Keys <= s.used && s'.begun.Keys <= s'.used
  }

  lemma ClusterStepLater(s: ClusterSys, step: Step)
    requires ClusterEnabled(s, step) && s.begun.Keys <= s.used
    ensures ClusterLater(s, ClusterNext(s, step))
  {
  }

  lemma {:induction false} ClusterAtLater(steps: seq<Step>, m: nat, n: nat)
    requires ClusterLegal(CLUSTER_START, steps) && m <= n <= |steps|
    ensures ClusterLater(ClusterAt(steps, m), ClusterAt(steps, n))
    decreases n
  {
    if m == n {
      var s := ShadowAt(steps, n);
    } else {
      ClusterAtLater(steps, m, n - 1);
      ClusterAtNext(steps, n - 1);
      ClusterStepLater(ClusterAt(steps, n - 1), steps[n - 1]);
    }
  }

  lemma BeginDrawsTheGeneration(s: ClusterSys, step: Step)
    requires ClusterEnabled(s, step) && step.Begin? && step.entry.installation != ""
    ensures var s' := ClusterNext(s, step);
            && step.id in s'.begun
            && s'.begun[step.id] == Ticket(step.key, step.entry, ClusterGen(s.cluster, step.entry.installation))
            && s'.cluster.gen == s.cluster.gen
  { }

  lemma SweepRaisesTheGeneration(s: ClusterSys, step: Step)
    requires ClusterEnabled(s, step) && step.SweepBegin?
    ensures ClusterGen(ClusterNext(s, step).cluster, step.installation) == ClusterGen(s.cluster, step.installation) + 1
    ensures step.installation != ""
  { }

  lemma StaleRecheckFails(s: ClusterSys, t: Id)
    requires ClusterEnabled(s, Recheck(t))
    requires s.sets[t].ticket.preGen < ClusterGen(s.cluster, s.sets[t].ticket.entry.installation)
    ensures t in ClusterNext(s, Recheck(t)).withdrawn
  { }

  // In flight, a Set holds the ticket it began with.
  lemma TicketIsKept(steps: seq<Step>, c: nat, t: Id)
    requires ClusterLegal(CLUSTER_START, steps) && c <= |steps| && t in ClusterAt(steps, c).sets
    ensures var s := ClusterAt(steps, c); t in s.begun && s.sets[t].ticket == s.begun[t]
  {
    var s := ShadowAt(steps, c);
    assert FlightRight(s, t);
  }

  // The recheck fails once the generation was raised after the ticket was drawn.
  lemma OvertakenFails(sa: ClusterSys, begin: Step, sb: ClusterSys, sweep: Step, sc: ClusterSys, t: Id)
    requires ClusterEnabled(sa, begin) && begin.Begin? && begin.id == t
    requires ClusterEnabled(sb, sweep) && sweep.SweepBegin? && sweep.installation == begin.entry.installation
    requires ClusterLater(ClusterNext(sa, begin), sb) && ClusterLater(ClusterNext(sb, sweep), sc)
    requires ClusterLater(ClusterNext(sa, begin), sc)
    requires ClusterEnabled(sc, Recheck(t)) && t in sc.begun && sc.sets[t].ticket == sc.begun[t]
    ensures t in ClusterNext(sc, Recheck(t)).withdrawn
  {
    hide ClusterNext;
    SweepRaisesTheGeneration(sb, sweep);
    BeginDrawsTheGeneration(sa, begin);
    var i := sweep.installation;
    assert ClusterGen(ClusterNext(sa, begin).cluster, i) <= ClusterGen(sb.cluster, i);
    assert ClusterGen(ClusterNext(sb, sweep).cluster, i) <= ClusterGen(sc.cluster, i);
    StaleRecheckFails(sc, t);
  }

  lemma OvertakenIsWithdrawnHere(steps: seq<Step>, a: nat, b: nat, c: nat, t: Id)
    requires ClusterLegal(CLUSTER_START, steps) && a < b < c < |steps|
    requires steps[a].Begin? && steps[a].id == t
    requires steps[b].SweepBegin? && steps[b].installation == steps[a].entry.installation
    requires steps[c] == Recheck(t)
    ensures t in ClusterAt(steps, c + 1).withdrawn
  {
    hide ClusterLegal, ClusterExec, ClusterAt, ClusterNext, ClusterLater, ClusterGen;
    ClusterAtNext(steps, a);
    ClusterAtNext(steps, b);
    ClusterAtNext(steps, c);
    ClusterAtLater(steps, a + 1, b);
    ClusterAtLater(steps, b + 1, c);
    ClusterAtLater(steps, a + 1, c);
    TicketIsKept(steps, c, t);
    OvertakenFails(ClusterAt(steps, a), steps[a], ClusterAt(steps, b), steps[b], ClusterAt(steps, c), t);
  }

  /** Whatever else runs, and whatever installations users move between, a Set whose index
      step comes before an invalidation of its installation, and its recheck after, has no
      lists of its own left in the LRU from the moment it has returned. */
  lemma ClusterOvertakenSetLeavesNothing(steps: seq<Step>, a: nat, b: nat, c: nat, t: Id, n: nat)
    requires ClusterLegal(CLUSTER_START, steps) && a < b < c < n <= |steps|
    requires steps[a].Begin? && steps[a].id == t
    requires steps[b].SweepBegin? && steps[b].installation == steps[a].entry.installation
    requires steps[c] == Recheck(t)
    ensures var s := ClusterAt(steps, n);
            t !in s.sets ==> forall u | u in s.cluster.lists :: u in s.owner && s.owner[u] != t
  {
    hide ClusterLegal, ClusterExec, ClusterAt, Books;
    OvertakenIsWithdrawnHere(steps, a, b, c, t);
    ClusterAtLater(steps, c + 1, n);
    var s := ShadowAt(steps, n);
    if t !in s.sets { WithdrawnOwnsNothing(s, t); }
  }

  // -------------------------------------------------------------------- lockstep ----

  // The cache as an API-key cache would hold it, every value tagged with its user's
  // installation.
  ghost function Tagged(c: Cluster, home: Key -> Inst): Cache {
    Cache(map u | u in c.lists :: Entry(home(u), c.lists[u]), c.index, c.gen)
  }

  // The two maps mirror each other, and both follow home.
  ghost predicate Mirrored(c: Cluster, home: Key -> Inst) {
    && (forall i | i in c.index :: i != "" && c.index[i] != {})
    && (forall u | u in c.byUser :: c.byUser[u] == home(u) && u in Bucket(c.index, home(u)))
    && (forall i, u | u in Bucket(c.index, i) :: i == home(u) && u in c.byUser)
  }

  lemma DropMirrored(c: Cluster, u: Key, home: Key -> Inst)
    requires Mirrored(c, home)
    ensures Mirrored(RemoveFromIndex(c, home(u), u), home)
  {
    var d := RemoveFromIndex(c, home(u), u);
    forall j, v ensures v in Bucket(d.index, j) <==> v in Bucket(c.index, j) && !(home(u) == j && u == v) {
      DropFacts(c.index, home(u), u, j, v);
    }
  }

  lemma DropAbsent(index: map<Inst, set<Key>>, i: Inst, u: Key)
    requires u !in Bucket(index, i) && (i in index ==> index[i] != {})
    ensures IndexDrop(index, i, u) == index
  {
    if i in index { assert index[i] - {u} == index[i]; }
  }

  lemma EvictInLockstep(c: Cluster, u: Key, home: Key -> Inst)
    requires Mirrored(c, home)
    ensures Mirrored(EvictUser(c, u), home)
    ensures Tagged(EvictUser(c, u), home) == Evict(Tagged(c, home), u)
  {
    if u in c.lists {
      if u in c.byUser { DropMirrored(c, u, home); } else { DropAbsent(c.index, home(u), u); }
      assert Tagged(EvictUser(c, u), home).entries == Evict(Tagged(c, home), u).entries;
    }
  }

  lemma AddInLockstep(c: Cluster, u: Key, lists: int, victim: Option<Key>, home: Key -> Inst)
    requires Mirrored(c, home)
    ensures Mirrored(AddLists(c, u, lists, victim), home)
    ensures Tagged(AddLists(c, u, lists, victim), home) == Insert(Tagged(c, home), u, Entry(home(u), lists), victim)
  {
    var d := c.(lists := c.lists[u := lists]);
    assert Tagged(d, home).entries == Tagged(c, home).entries[u := Entry(home(u), lists)];
    if victim.Some? { EvictInLockstep(d, victim.value, home); }
  }

  lemma TakeInLockstep(c: Cluster, i: Inst, home: Key -> Inst)
    requires Mirrored(c, home)
    ensures Mirrored(TakeUsers(c, i), home)
    ensures Tagged(TakeUsers(c, i), home) == TakeBucket(Tagged(c, home), i)
  {
    var d := TakeUsers(c, i);
    forall j, u | u in Bucket(d.index, j) ensures j == home(u) && u in d.byUser {
      assert u in Bucket(c.index, j);
      assert u in Bucket(c.index, i) ==> i == home(u);
    }
    forall u | u in d.byUser ensures d.byUser[u] == home(u) && u in Bucket(d.index, home(u)) {
      assert u in Bucket(c.index, home(u));
    }
  }

  lemma IndexInLockstep(c: Cluster, u: Key, i: Inst, home: Key -> Inst)
    requires Mirrored(c, home) && i == home(u) != ""
    ensures Mirrored(IndexUser(c, u, i), home)
    ensures Tagged(IndexUser(c, u, i), home) == IndexStep(Tagged(c, home), u, i)
  {
    var d := IndexUser(c, u, i);
    forall j, v | v in Bucket(d.index, j) ensures j == home(v) && v in d.byUser {
      if !(j == i && v == u) { assert v in Bucket(c.index, j); }
    }
    forall v | v in d.byUser ensures d.byUser[v] == home(v) && v in Bucket(d.index, home(v)) {
      if v != u { assert v in Bucket(c.index, home(v)); }
    }
  }

  // The two caches at the same point of the same run.
  ghost predicate Lockstep(cs: ClusterSys, s: Sys, home: Key -> Inst) {
    && Mirrored(cs.cluster, home) && Tagged(cs.cluster, home) == s.cache
    && s.sets == cs.sets && s.sweeps == cs.sweeps && s.begun == cs.begun && s.owner == cs.owner
    && s.withdrawn == cs.withdrawn
    && s.begun.Keys <= cs.used && s.sweeps.Keys <= cs.used
  }

  lemma DropIsTagged(c: Cluster, k: Key, home: Key -> Inst)
    ensures Tagged(RemoveFromIndex(c, home(k), k), home)
         == Tagged(c, home).(index := IndexDrop(Tagged(c, home).index, home(k), k))
  { }

  lemma LockstepGenerations(cs: ClusterSys, s: Sys, i: Inst, home: Key -> Inst)
    requires Lockstep(cs, s, home)
    ensures GenOf(s.cache, i) == ClusterGen(cs.cluster, i)
  { }

  lemma RecheckInLockstep(cs: ClusterSys, s: Sys, t: Id, home: Key -> Inst)
    requires Lockstep(cs, s, home) && Homed(s, home) && ClusterEnabled(cs, Recheck(t))
    ensures Enabled(s, Recheck(t)) && Lockstep(ClusterNext(cs, Recheck(t)), Next(s, Recheck(t)), home)
  {
    var ticket := s.sets[t].ticket;
    assert ticket.entry.installation == home(ticket.key);
    hide Homed, IndexDrop, Mirrored, RemoveFromIndex, Tagged, GenOf, ClusterGen;
    LockstepGenerations(cs, s, home(ticket.key), home);
    DropMirrored(cs.cluster, ticket.key, home);
    DropIsTagged(cs.cluster, ticket.key, home);
    var d, flight := RemoveFromIndex(cs.cluster, home(ticket.key), ticket.key), Flight(Stale, ticket);
    if GenOf(s.cache, home(ticket.key)) != ticket.preGen {
      assert ClusterNext(cs, Recheck(t))
          == cs.(cluster := d, sets := cs.sets[t := flight], withdrawn := cs.withdrawn + {t});
      assert Next(s, Recheck(t))
          == s.(cache := Tagged(d, home), sets := s.sets[t := flight], withdrawn := s.withdrawn + {t});
    }
  }

  lemma PutInLockstep(cs: ClusterSys, s: Sys, t: Id, victim: Option<Key>, home: Key -> Inst)
    requires Lockstep(cs, s, home) && Homed(s, home) && ClusterEnabled(cs, Put(t, victim))
    ensures Enabled(s, Put(t, victim)) && Lockstep(ClusterNext(cs, Put(t, victim)), Next(s, Put(t, victim)), home)
  {
    var ticket := s.sets[t].ticket;
    assert ticket.entry == Entry(home(ticket.key), ticket.entry.payload);
    assert s.cache.entries.Keys == cs.cluster.lists.Keys;
    AddInLockstep(cs.cluster, ticket.key, ticket.entry.payload, victim, home);
    hide Mirrored, Homed, Tagged, AddLists, Insert, Evict;
    PutIsInsert(s, t, victim);
    assert Next(s, Put(t, victim)).owner == s.owner[ticket.key := t] - (if victim.Some? then {victim.value} else {});
  }

  lemma SweepInLockstep(cs: ClusterSys, s: Sys, t: Id, i: Inst, home: Key -> Inst)
    requires Lockstep(cs, s, home) && ClusterEnabled(cs, SweepBegin(t, i))
    ensures Enabled(s, SweepBegin(t, i)) && Lockstep(ClusterNext(cs, SweepBegin(t, i)), Next(s, SweepBegin(t, i)), home)
  {
    TakeInLockstep(cs.cluster, i, home);
    hide Mirrored;
  }

  lemma BeginInLockstep(cs: ClusterSys, s: Sys, t: Id, u: Key, e: Entry, home: Key -> Inst)
    requires Lockstep(cs, s, home) && ClusterEnabled(cs, Begin(t, u, e)) && e.installation == home(u)
    ensures Enabled(s, Begin(t, u, e)) && Lockstep(ClusterNext(cs, Begin(t, u, e)), Next(s, Begin(t, u, e)), home)
  {
    if e.installation != "" { IndexInLockstep(cs.cluster, u, e.installation, home); }
    hide Mirrored, IndexAdd;
  }

  lemma RemovalInLockstep(cs: ClusterSys, s: Sys, u: Key, home: Key -> Inst)
    requires Lockstep(cs, s, home)
    ensures Lockstep(Removed(cs, u), WithEvicted(s, u), home)
  {
    EvictInLockstep(cs.cluster, u, home);
    hide Mirrored, Tagged, EvictUser, Evict;
  }

  /** One step of the protocol: the per-user cache, tagged, does what the API-key cache
      does, and keeps its two maps mirrored. */
  lemma StepsInLockstep(cs: ClusterSys, s: Sys, step: Step, home: Key -> Inst)
    requires Lockstep(cs, s, home) && Homed(s, home)
    requires ClusterEnabled(cs, step) && HomeStep(step, home)
    ensures Enabled(s, step) && Lockstep(ClusterNext(cs, step), Next(s, step), home)
  {
    assert s.cache.entries.Keys == cs.cluster.lists.Keys;
    hide Mirrored, Homed, Tagged, EvictUser, Evict, AddLists, IndexDrop, IndexAdd;
    match step
    case Begin(t, u, e) => BeginInLockstep(cs, s, t, u, e, home);
    case Put(t, victim) => PutInLockstep(cs, s, t, victim, home);
    case Recheck(t) => RecheckInLockstep(cs, s, t, home);
    case Withdraw(t) => RemovalInLockstep(cs, s, s.sets[t].ticket.key, home);
    case SweepBegin(t, i) => SweepInLockstep(cs, s, t, i, home);
    case SweepOne(t, u) => RemovalInLockstep(cs, s, u, home);
    case SweepEnd(t) =>
    case Lapse(u) => RemovalInLockstep(cs, s, u, home);
  }

  predicate AllHome(steps: seq<Step>, home: Key -> Inst) {
    forall step | step in steps :: step.Begin? ==> step.entry.installation == home(step.key)
  }

  lemma {:induction false} RunsInLockstep(cs: ClusterSys, s: Sys, steps: seq<Step>, home: Key -> Inst)
    requires Lockstep(cs, s, home) && Books(s) && Homed(s, home)
    requires ClusterLegal(cs, steps) && AllHome(steps, home)
    ensures HomeRun(s, steps, home) && Legal(s, steps)
    ensures Lockstep(ClusterExec(cs, steps), Exec(s, steps), home)
    decreases |steps|
  {
    if steps != [] {
      assert steps[0] in steps && forall step | step in steps[1..] :: step in steps;
      StepsInLockstep(cs, s, steps[0], home);
      BooksKept(s, steps[0]);
      HomedKept(s, steps[0], home);
      RunsInLockstep(ClusterNext(cs, steps[0]), Next(s, steps[0]), steps[1..], home);
    }
  }

  // The users cached are exactly the users indexed, by both index maps.
  predicate UserExact(c: Cluster, u: Key, i: Inst) {
    && (u in c.lists <==> u in Bucket(c.index, i))
    && (u in c.lists <==> u in c.byUser && c.byUser[u] == i)
  }

  // What is indexed at a rest of the API-key cache is exact here.
  lemma IndexedRestIsExact(steps: seq<Step>, home: Key -> Inst, u: Key)
    requires ClusterLegal(CLUSTER_START, steps) && AllHome(steps, home) && home(u) != "" && Legal(START, steps)
    requires var s := Exec(START, steps);
             AtRest(s) && u in s.cache.entries && s.cache.entries[u].installation != "" ==>
               IsIndexed(s.cache, s.cache.entries[u].installation, u)
    ensures var cs := ClusterExec(CLUSTER_START, steps);
            cs.sets == map[] && cs.sweeps == map[] ==> UserExact(cs.cluster, u, home(u))
  {
    assert Tagged(EMPTY_CLUSTER, home) == START.cache;
    RunsInLockstep(CLUSTER_START, START, steps, home);
    InvalidationSparesOthers(steps, home);
    var c, s := ClusterExec(CLUSTER_START, steps).cluster, Exec(START, steps);
    if AtRest(s) && u in Bucket(c.index, home(u)) {
      assert IsIndexed(s.cache, home(u), u);
    }
  }

  /** While each user keeps one installation, at every rest of every run in which waiting
      Sets keep their index entries, the users cached are exactly the users indexed, each
      under its own installation, and both index maps say so. */
  lemma ClusterRestIsExact(steps: seq<Step>, home: Key -> Inst, u: Key)
    requires ClusterLegal(CLUSTER_START, steps) && AllHome(steps, home)
    requires UndisturbedRun(START, steps) && home(u) != ""
    ensures var cs := ClusterExec(CLUSTER_START, steps);
            cs.sets == map[] && cs.sweeps == map[] ==> UserExact(cs.cluster, u, home(u))
  {
    RestIsFreshAndIndexed(steps, u);
    IndexedRestIsExact(steps, home, u);
  }

  // A Set of a user with an installation starts only while the user's lists are not cached
  // and no other Set of the user waits to insert, or has inserted and been overtaken.
  predicate ClusterApart(cs: ClusterSys, step: Step) {
    step.Begin? && step.entry.installation != "" ==>
      && step.key !in cs.cluster.lists
      && forall t | t in cs.sets && cs.sets[t].ticket.key == step.key ::
           && cs.sets[t].phase != Listed
           && (cs.sets[t].phase == Added ==>
                 cs.sets[t].ticket.preGen == ClusterGen(cs.cluster, cs.sets[t].ticket.entry.installation))
  }

  predicate ClusterApartRun(cs: ClusterSys, steps: seq<Step>)
    requires ClusterLegal(cs, steps)
    decreases |steps|
  {
    steps != [] ==> ClusterApart(cs, steps[0]) && ClusterApartRun(ClusterNext(cs, steps[0]), steps[1..])
  }

  lemma ApartInLockstep(cs: ClusterSys, s: Sys, step: Step, home: Key -> Inst)
    requires Lockstep(cs, s, home) && Homed(s, home) && HomeStep(step, home)
    ensures ClusterApart(cs, step) <==> LostSets.Apart(s, step)
  {
    assert s.cache.entries.Keys == cs.cluster.lists.Keys;
    assert forall k | k in s.cache.entries :: s.cache.entries[k].installation == home(k);
    forall t | t in s.sets
      ensures s.sets[t].ticket.entry.installation == home(s.sets[t].ticket.key)
      ensures GenOf(s.cache, home(s.sets[t].ticket.key)) == ClusterGen(cs.cluster, home(s.sets[t].ticket.key))
    { }
    hide Homed, Mirrored, Tagged;
    if step.Begin? && step.entry.installation != "" {
      var k, i := step.key, step.entry.installation;
      if !ClusterApart(cs, step) && k !in cs.cluster.lists {
        var t :| t in cs.sets && cs.sets[t].ticket.key == k
              && (cs.sets[t].phase == Listed
                  || (cs.sets[t].phase == Added
                      && cs.sets[t].ticket.preGen != ClusterGen(cs.cluster, cs.sets[t].ticket.entry.installation)));
        assert LostSets.CanDrop(s, t, k, i);
      }
    }
  }

  lemma {:induction false} ApartRunInLockstep(cs: ClusterSys, s: Sys, steps: seq<Step>, home: Key -> Inst)
    requires Lockstep(cs, s, home) && Books(s) && Homed(s, home)
    requires ClusterLegal(cs, steps) && AllHome(steps, home) && ClusterApartRun(cs, steps)
    ensures LostSets.ApartRun(s, steps)
    decreases |steps|
  {
    if steps != [] {
      assert steps[0] in steps && forall step | step in steps[1..] :: step in steps;
      ApartInLockstep(cs, s, steps[0], home);
      StepsInLockstep(cs, s, steps[0], home);
      BooksKept(s, steps[0]);
      HomedKept(s, steps[0], home);
      ApartRunInLockstep(ClusterNext(cs, steps[0]), Next(s, steps[0]), steps[1..], home);
    }
  }

  /** The same under what a caller of this cache can see to: no Set of a user starts over the
      user's cached lists, nor over another Set of the user that waits to insert or has been
      overtaken. */
  lemma ApartClusterRestIsExact(steps: seq<Step>, home: Key -> Inst, u: Key)
    requires ClusterLegal(CLUSTER_START, steps) && AllHome(steps, home)
    requires ClusterApartRun(CLUSTER_START, steps) && home(u) != ""
    ensures var cs := ClusterExec(CLUSTER_START, steps);
            cs.sets == map[] && cs.sweeps == map[] ==> UserExact(cs.cluster, u, home(u))
  {
    assert Tagged(EMPTY_CLUSTER, home) == START.cache;
    ApartRunInLockstep(CLUSTER_START, START, steps, home);
    LostSets.ApartRestIsFreshAndIndexed(steps, u);
    IndexedRestIsExact(steps, home, u);
  }

  // A step that starts nothing is possible here when it is in the API-key cache.
  lemma EnabledInLockstep(cs: ClusterSys, s: Sys, step: Step, home: Key -> Inst)
    requires Lockstep(cs, s, home) && Enabled(s, step) && !LostSets.Starts(step)
    ensures ClusterEnabled(cs, step)
  {
    assert s.cache.entries.Keys == cs.cluster.lists.Keys;
  }

  lemma {:induction false} QuietRunInLockstep(cs: ClusterSys, s: Sys, steps: seq<Step>, home: Key -> Inst)
    requires Lockstep(cs, s, home) && Books(s) && Homed(s, home) && Legal(s, steps) && LostSets.Quiet(steps)
    ensures ClusterLegal(cs, steps) && Lockstep(ClusterExec(cs, steps), Exec(s, steps), home)
    decreases |steps|
  {
    if steps != [] {
      assert steps[0] in steps && forall step | step in steps[1..] :: step in steps;
      EnabledInLockstep(cs, s, steps[0], home);
      StepsInLockstep(cs, s, steps[0], home);
      BooksKept(s, steps[0]);
      HomedKept(s, steps[0], home);
      QuietRunInLockstep(ClusterNext(cs, steps[0]), Next(s, steps[0]), steps[1..], home);
    }
  }

  // The lists of u are cached at a rest, and an invalidation of the installation keeps them.
  predicate UserLost(cs: ClusterSys, u: Key, i: Inst) {
    cs.sets == map[] && cs.sweeps == map[] && u in cs.cluster.lists && u !in Bucket(cs.cluster.index, i)
    && u in InvalidateListsAlone(cs.cluster, i).lists
  }

  lemma LostInLockstep(cs: ClusterSys, s: Sys, home: Key -> Inst, t: Id, u: Key)
    requires Lockstep(cs, s, home) && LostSets.Lost(s, t, u, home(u)) && home(u) != ""
    ensures UserLost(cs, u, home(u))
  {
    assert s.cache.entries.Keys == cs.cluster.lists.Keys;
  }

  lemma InLockstepFromTheStart(steps: seq<Step>, home: Key -> Inst)
    requires ClusterLegal(CLUSTER_START, steps) && AllHome(steps, home)
    ensures Legal(START, steps)
    ensures var s := Exec(START, steps);
            Lockstep(ClusterExec(CLUSTER_START, steps), s, home) && Books(s) && Homed(s, home)
  {
    assert Tagged(EMPTY_CLUSTER, home) == START.cache;
    RunsInLockstep(CLUSTER_START, START, steps, home);
    HomedAlways(START, steps, home);
  }

  /** No less will do: a Set that starts over either can come to rest, nothing else starting,
      with its user's lists cached where no invalidation finds them. */
  lemma OverlapLosesLists(steps: seq<Step>, home: Key -> Inst, t: Id, u: Key, e: Entry) returns (more: seq<Step>)
    requires ClusterLegal(CLUSTER_START, steps) && AllHome(steps, home) && e.installation == home(u) != ""
    requires var cs := ClusterExec(CLUSTER_START, steps);
             ClusterEnabled(cs, Begin(t, u, e)) && !ClusterApart(cs, Begin(t, u, e))
    ensures var d := ClusterNext(ClusterExec(CLUSTER_START, steps), Begin(t, u, e));
            && LostSets.Quiet(more) && ClusterLegal(d, more)
            && UserLost(ClusterExec(d, more), u, home(u))
  {
    hide ClusterLegal, ClusterExec, Legal, Exec, Lockstep, Books, Homed, Tagged, ClusterNext, Next, ClusterApart;
    hide LostSets.Overlapped, LostSets.Lost, UserLost;
    InLockstepFromTheStart(steps, home);
    var cs, s, step := ClusterExec(CLUSTER_START, steps), Exec(START, steps), Begin(t, u, e);
    OverlapIsOverlapHere(cs, s, t, u, e, home);
    LostSets.NewSetCanBeLostExactlyWhen(s, t, u, e);
    more := QuietlyLostRun(Next(s, step), t, u, home(u), s, e);
    BooksKept(s, step);
    HomedKept(s, step, home);
    QuietRunInLockstep(ClusterNext(cs, step), Next(s, step), more, home);
    LostInLockstep(ClusterExec(ClusterNext(cs, step), more), Exec(Next(s, step), more), home, t, u);
  }

  lemma OverlapIsOverlapHere(cs: ClusterSys, s: Sys, t: Id, u: Key, e: Entry, home: Key -> Inst)
    requires Lockstep(cs, s, home) && Homed(s, home) && e.installation == home(u) != ""
    requires ClusterEnabled(cs, Begin(t, u, e)) && !ClusterApart(cs, Begin(t, u, e))
    ensures Enabled(s, Begin(t, u, e)) && LostSets.Overlapped(s, u, e.installation)
    ensures Lockstep(ClusterNext(cs, Begin(t, u, e)), Next(s, Begin(t, u, e)), home)
  {
    ApartInLockstep(cs, s, Begin(t, u, e), home);
    StepsInLockstep(cs, s, Begin(t, u, e), home);
  }

  lemma QuietlyLostRun(d: Sys, t: Id, k: Key, i: Inst, s: Sys, e: Entry) returns (more: seq<Step>)
    requires Enabled(s, Begin(t, k, e)) && d == Next(s, Begin(t, k, e)) && e.installation == i
    requires t in d.sets && LostSets.CanBeLostQuietly(d, t)
    ensures LostSets.Quiet(more) && Legal(d, more) && LostSets.Lost(Exec(d, more), t, k, i)
  {
    more :| LostSets.Quiet(more) && Legal(d, more) && LostSets.Lost(Exec(d, more), t, k, i);
  }

  // ------------------------------------------------------------- operations at rest ----

  // Set, run alone: the generation cannot have moved.
  function SetListsAlone(c: Cluster, u: Key, i: Inst, lists: int, victim: Option<Key>): Cluster {
    if u == "" then c
    else AddLists(if i == "" then c else IndexUser(c, u, i), u, lists, victim)
  }

  // InvalidateInstallation, run alone: the users taken have left byUser already, so removing
  // them touches no bucket.
  function InvalidateListsAlone(c: Cluster, i: Inst): Cluster {
    if i == "" then c else TakeUsers(c, i).(lists := c.lists - Bucket(c.index, i))
  }

  /** While each user keeps one installation, both operations are the API-key cache's. */
  lemma OperationsInLockstep(c: Cluster, u: Key, i: Inst, lists: int, victim: Option<Key>, home: Key -> Inst)
    requires Mirrored(c, home)
    ensures home(u) == i && u != "" ==>
              && Mirrored(SetListsAlone(c, u, i, lists, victim), home)
              && Tagged(SetListsAlone(c, u, i, lists, victim), home)
                 == SetAlone(Tagged(c, home), u, Entry(i, lists), victim)
    ensures Mirrored(InvalidateListsAlone(c, i), home)
    ensures Tagged(InvalidateListsAlone(c, i), home) == InvalidateAlone(Tagged(c, home), i)
  {
    if home(u) == i && u != "" {
      if i != "" { IndexInLockstep(c, u, i, home); }
      AddInLockstep(if i == "" then c else IndexUser(c, u, i), u, lists, victim, home);
    }
    if i != "" {
      TakeInLockstep(c, i, home);
      TakenLeaveNoTrace(TakeUsers(c, i), Bucket(c.index, i), home);
    }
  }

  lemma TakenLeaveNoTrace(c: Cluster, users: set<Key>, home: Key -> Inst)
    requires Mirrored(c, home) && forall u | u in users :: u !in c.byUser
    ensures Mirrored(c.(lists := c.lists - users), home)
    ensures Tagged(c.(lists := c.lists - users), home) == EvictAll(Tagged(c, home), users)
  {
    var t, d := Tagged(c, home), c.(lists := c.lists - users);
    forall j | j in t.index ensures Kept(t, users, j) == t.index[j] {
      forall k | k in t.index[j] ensures k !in users { assert k in Bucket(c.index, j); }
    }
    assert EvictAll(t, users).index == t.index;
    assert Tagged(d, home).entries == t.entries - users;
  }

  /** A user set again under another installation stays listed under the first as well, so
      that invalidating either drops its lists. */
  lemma MovedUserIsDroppedByEither(c: Cluster, u: Key, i: Inst, j: Inst, lists: int, victim: Option<Key>)
    requires u in Bucket(c.index, i) && i != "" && j != "" && i != j && u != ""
    requires victim.Some? ==> victim.value != u
    ensures var d := SetListsAlone(c, u, j, lists, victim);
            u in d.lists && u !in InvalidateListsAlone(d, i).lists && u !in InvalidateListsAlone(d, j).lists
  {
    var indexed := IndexUser(c, u, j);
    var added := indexed.(lists := indexed.lists[u := lists]);
    assert u in Bucket(added.index, i) && u in Bucket(added.index, j);
    if victim.Some? && victim.value in added.lists && victim.value in added.byUser {
      DropFacts(added.index, added.byUser[victim.value], victim.value, i, u);
      DropFacts(added.index, added.byUser[victim.value], victim.value, j, u);
    }
  }

  // -------------------------------------------------------------------- the class ----

  class LRUUserClusterListCache {
    var entries: map<Key, int>
    var byInstallation: map<Inst, set<Key>>
    var invalidationGen: map<Inst, nat>
    var installationByUser: map<Key, Inst>

    ghost function View(): Cluster
      reads this
    {
      Cluster(entries, byInstallation, invalidationGen, installationByUser)
    }

    constructor ()
      ensures View() == EMPTY_CLUSTER
    {
      entries, byInstallation, invalidationGen, installationByUser := map[], map[], map[], map[];
    }

    method Get(u: Key) returns (hit: Option<int>)
      ensures hit == if u in entries then Some(entries[u]) else None
    {
      return if u in entries then Some(entries[u]) else None;
    }

    method RemoveFromIndexLocked(i: Inst, u: Key)
      modifies this`byInstallation, this`installationByUser
      ensures View() == RemoveFromIndex(old(View()), i, u)
    {
      installationByUser := installationByUser - {u};
      if i !in byInstallation {
        return;
      }
      var users := byInstallation[i] - {u};
      byInstallation := if |users| == 0 then byInstallation - {i} else byInstallation[i := users];
    }

    // entries.Remove, a capacity eviction or an expiry, with the callback.
    method Remove(u: Key)
      modifies this`entries, this`byInstallation, this`installationByUser
      ensures View() == EvictUser(old(View()), u)
    {
      if u in entries {
        entries := entries - {u};
        if u in installationByUser {
          RemoveFromIndexLocked(installationByUser[u], u);
        }
      }
    }

    method IndexUnderLock(i: Inst, u: Key) returns (preGen: nat)
      modifies this`byInstallation, this`installationByUser
      ensures View() == if i == "" then old(View()) else IndexUser(old(View()), u, i)
      ensures preGen == if i == "" then 0 else ClusterGen(View(), i)
    {
      preGen := 0;
      if i != "" {
        preGen := if i in invalidationGen then invalidationGen[i] else 0;
        var users := if i in byInstallation then byInstallation[i] else {};
        byInstallation := byInstallation[i := users + {u}];
        installationByUser := installationByUser[u := i];
      }
    }

    method Add(u: Key, lists: int, victim: Option<Key>)
      modifies this`entries, this`byInstallation, this`installationByUser
      ensures View() == AddLists(old(View()), u, lists, victim)
    {
      entries := entries[u := lists];
      if victim.Some? {
        Remove(victim.value);
      }
    }

    method RecheckUnderLock(i: Inst, u: Key, preGen: nat)
      modifies this`entries, this`byInstallation, this`installationByUser
      ensures View() == if ClusterGen(old(View()), i) == preGen then old(View())
                        else EvictUser(RemoveFromIndex(old(View()), i, u), u)
    {
      var gen := if i in invalidationGen then invalidationGen[i] else 0;
      if gen != preGen {
        RemoveFromIndexLocked(i, u);
        Remove(u);
      }
    }

    /** Set, run alone, whatever installation the user had before: an unnamed user is
        ignored. */
    method Set(i: Inst, u: Key, lists: int, victim: Option<Key>)
      modifies this
      ensures View() == SetListsAlone(old(View()), u, i, lists, victim)
    {
      if u == "" {
        return;
      }
      var preGen := IndexUnderLock(i, u);
      Add(u, lists, victim);
      if i == "" {
        return;
      }
      assert ClusterGen(View(), i) == preGen;
      RecheckUnderLock(i, u, preGen);
    }

    // The removals of InvalidateInstallation, after it has let go of the lock.
    method RemoveAll(users: set<Key>)
      requires forall u | u in users :: u !in installationByUser
      modifies this`entries, this`byInstallation, this`installationByUser
      ensures View() == old(View()).(lists := old(entries) - users)
    {
      var left := users;
      ghost var c := View();
      assert entries - {} == entries;
      while left != {}
        invariant left <= users
        invariant View() == c.(lists := c.lists - (users - left))
        decreases |left|
      {
        var u :| u in left;
        assert c.lists - (users - left) - {u} == c.lists - (users - (left - {u}));
        Remove(u);
        left := left - {u};
      }
      assert users - left == users;
    }

    /** InvalidateInstallation, run alone. */
    method InvalidateInstallation(i: Inst)
      modifies this
      ensures View() == InvalidateListsAlone(old(View()), i)
    {
      if i == "" {
        return;
      }
      var users := if i in byInstallation then byInstallation[i] else {};
      byInstallation := byInstallation - {i};
      invalidationGen := invalidationGen[i := (if i in invalidationGen then invalidationGen[i] else 0) + 1];
      installationByUser := installationByUser - users;
      RemoveAll(users);
    }
  }
}
