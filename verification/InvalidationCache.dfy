/** The installation-indexed LRU of internal/auth/apikey_cache.go, as atomic steps.

    The code never holds its mutex across a call into the LRU, so a Set is three
    steps (index, insert, recheck) and sometimes a fourth (withdraw), and an
    invalidation is one step under the mutex followed by a removal per key.  Any
    number of them interleave, and the LRU may drop an entry at any point.  A drop and
    its callback are one step here.  That is an assumption: the callback runs under the
    LRU's own lock, but takes the cache's mutex only afterwards, and another operation
    could take it in between.  Which entry a full LRU drops is left open. */
module InvalidationCache {
  import opened Wrappers

  type Key = string
  type Inst = string   // an installation ID; "" means none

  datatype Entry = Entry(installation: Inst, payload: int)

  datatype Cache = Cache(
    entries: map<Key, Entry>,        // the LRU's contents
    index: map<Inst, set<Key>>,      // byInstallation
    gen: map<Inst, nat>)             // invalidationGen

  // ------------------------------------------------------------ atomic steps ----

  function GenOf(c: Cache, i: Inst): nat {
    if i in c.gen then c.gen[i] else 0
  }

  function Bucket(index: map<Inst, set<Key>>, i: Inst): set<Key> {
    if i in index then index[i] else {}
  }

  predicate IsIndexed(c: Cache, i: Inst, k: Key) {
    k in Bucket(c.index, i)
  }

  function IndexAdd(index: map<Inst, set<Key>>, i: Inst, k: Key): map<Inst, set<Key>> {
    index[i := Bucket(index, i) + {k}]
  }

  // Drops a key from its bucket, and the bucket with its last key.
  function IndexDrop(index: map<Inst, set<Key>>, i: Inst, k: Key): map<Inst, set<Key>> {
    if i !in index then index
    else if index[i] - {k} == {} then index - {i}
    else index[i := index[i] - {k}]
  }

  // The LRU lets go of k: removal, capacity eviction or expiry, with its callback.
  function Evict(c: Cache, k: Key): Cache {
    if k !in c.entries then c
    else
      var i := c.entries[k].installation;
      c.(entries := c.entries - {k},
         index := if i == "" then c.index else IndexDrop(c.index, i, k))
  }

  predicate MayEvict(c: Cache, k: Key, victim: Option<Key>) {
    victim.Some? ==> victim.value in c.entries && victim.value != k && k !in c.entries
  }

  // positive.Add: an insertion of a new key may push one other entry out.
  function Insert(c: Cache, k: Key, e: Entry, victim: Option<Key>): Cache {
    var c := c.(entries := c.entries[k := e]);
    if victim.Some? then Evict(c, victim.value) else c
  }

  function IndexStep(c: Cache, k: Key, i: Inst): Cache {
    c.(index := IndexAdd(c.index, i, k))
  }

  // The step of an invalidation that runs under the mutex.
  function TakeBucket(c: Cache, i: Inst): Cache {
    c.(index := c.index - {i}, gen := c.gen[i := GenOf(c, i) + 1])
  }

  lemma DropFacts(index: map<Inst, set<Key>>, i: Inst, k: Key, j: Inst, m: Key)
    ensures m in Bucket(IndexDrop(index, i, k), j) <==> m in Bucket(index, j) && !(i == j && k == m)
  {
    if j == i && i in index && m in index[i] && m != k {
      assert m in index[i] - {k};
    }
  }

  // --------------------------------------------------------- operations at rest ----

  // Set, run alone.
  function SetAlone(c: Cache, k: Key, e: Entry, victim: Option<Key>): Cache {
    if e.installation == "" then Insert(c, k, e, victim)
    else Insert(IndexStep(c, k, e.installation), k, e, victim)
  }

  // The LRU lets go of every key of ks.
  function EvictAll(c: Cache, ks: set<Key>): Cache {
    c.(entries := c.entries - ks,
       index := map i | i in c.index && Kept(c, ks, i) != {} :: Kept(c, ks, i))
  }

  function Kept(c: Cache, ks: set<Key>, i: Inst): set<Key>
    requires i in c.index
  {
    set k | k in c.index[i] && !(k in ks && k in c.entries && c.entries[k].installation == i)
  }

  // InvalidateInstallation, run alone.
  function InvalidateAlone(c: Cache, i: Inst): Cache {
    if i == "" then c else EvictAll(TakeBucket(c, i), Bucket(c.index, i))
  }

  // What every step keeps of the index alone.
  ghost predicate WellFormed(c: Cache) {
    forall i | i in c.index :: i != "" && c.index[i] != {}
  }

  // Every cached entry is indexed under its installation.
  ghost predicate AllIndexed(c: Cache) {
    forall k | k in c.entries && c.entries[k].installation != "" :: IsIndexed(c, c.entries[k].installation, k)
  }

  // Each key keeps one installation, and the index lists nothing but cached entries.
  ghost predicate Tight(c: Cache, home: Key -> Inst) {
    && (forall k | k in c.entries :: c.entries[k].installation == home(k))
    && (forall i, k | i in c.index && k in c.index[i] :: k in c.entries && home(k) == i)
  }

  lemma EvictAlone(c: Cache, ks: set<Key>, k: Key)
    requires WellFormed(c) && k !in ks
    ensures Evict(EvictAll(c, ks), k) == EvictAll(c, ks + {k})
  {
    var a, b := Evict(EvictAll(c, ks), k), EvictAll(c, ks + {k});
    var c' := EvictAll(c, ks);
    forall i ensures Bucket(a.index, i) == Bucket(b.index, i) && (i in a.index <==> i in b.index) {
      if i in c.index {
        var hit := k in c.entries && c.entries[k].installation == i;
        assert Kept(c, ks + {k}, i) == if hit then Kept(c, ks, i) - {k} else Kept(c, ks, i);
        assert i in c'.index <==> Kept(c, ks, i) != {};
      }
    }
    assert a.index == b.index by {
      forall i | i in a.index ensures i in b.index && a.index[i] == b.index[i] {
        assert Bucket(a.index, i) == Bucket(b.index, i);
      }
    }
    assert a.entries == b.entries;
  }

  lemma EvictNone(c: Cache)
    requires WellFormed(c)
    ensures EvictAll(c, {}) == c
  {
    forall i | i in c.index ensures Kept(c, {}, i) == c.index[i] { }
  }

  lemma EvictKeepsRest(c: Cache, k: Key, home: Key -> Inst)
    requires WellFormed(c) && AllIndexed(c)
    ensures WellFormed(Evict(c, k)) && AllIndexed(Evict(c, k)) && k !in Evict(c, k).entries
    ensures Tight(c, home) ==> Tight(Evict(c, k), home)
  {
    if k in c.entries && c.entries[k].installation != "" {
      forall j, m ensures IsIndexed(Evict(c, k), j, m) <==>
        IsIndexed(c, j, m) && !(j == c.entries[k].installation && m == k)
      {
        DropFacts(c.index, c.entries[k].installation, k, j, m);
      }
    }
  }

  lemma PutKeepsRest(c: Cache, k: Key, e: Entry, home: Key -> Inst)
    requires WellFormed(c) && AllIndexed(c)
    ensures var d := SetAlone(c, k, e, None);
            && WellFormed(d) && AllIndexed(d)
            && (Tight(c, home) && e.installation == home(k) ==> Tight(d, home))
  {
    var d := SetAlone(c, k, e, None);
    assert forall j, m :: IsIndexed(d, j, m) <==> IsIndexed(c, j, m) || (j == e.installation != "" && m == k);
    forall m | m in d.entries && d.entries[m].installation != ""
      ensures IsIndexed(d, d.entries[m].installation, m)
    {
      if m != k { assert IsIndexed(c, c.entries[m].installation, m); }
    }
    if Tight(c, home) && e.installation == home(k) {
      forall i, m | i in d.index && m in d.index[i] ensures m in d.entries && home(m) == i {
        assert IsIndexed(d, i, m);
      }
    }
  }

  lemma SetKeepsRest(c: Cache, k: Key, e: Entry, victim: Option<Key>, home: Key -> Inst)
    requires WellFormed(c) && AllIndexed(c) && MayEvict(c, k, victim)
    ensures var d := SetAlone(c, k, e, victim);
            && WellFormed(d) && AllIndexed(d)
            && k in d.entries && d.entries[k] == e
            && (Tight(c, home) && e.installation == home(k) ==> Tight(d, home))
  {
    PutKeepsRest(c, k, e, home);
    if victim.Some? {
      EvictKeepsRest(SetAlone(c, k, e, None), victim.value, home);
    }
  }

  /** Run alone, an invalidation leaves none of its installation's entries; and when
      each key keeps one installation, it keeps every other entry. */
  lemma InvalidateAloneIsExact(c: Cache, i: Inst, home: Key -> Inst)
    requires WellFormed(c) && AllIndexed(c) && i != ""
    ensures var d := InvalidateAlone(c, i);
            && WellFormed(d) && AllIndexed(d)
            && (forall k | k in d.entries :: k in c.entries && d.entries[k] == c.entries[k]
                                             && c.entries[k].installation != i)
            && GenOf(d, i) == GenOf(c, i) + 1
            && (Tight(c, home) ==>
                  && Tight(d, home)
                  && (forall k | k in c.entries && c.entries[k].installation != i :: k in d.entries))
  {
    var t, ks := TakeBucket(c, i), Bucket(c.index, i);
    var d := EvictAll(t, ks);
    forall k | k in d.entries && d.entries[k].installation != ""
      ensures d.entries[k].installation != i && IsIndexed(d, d.entries[k].installation, k)
    {
      var j := d.entries[k].installation;
      assert IsIndexed(c, j, k);
      assert k in Kept(t, ks, j);
    }
    if Tight(c, home) {
      forall j, k | j in d.index && k in d.index[j] ensures k in d.entries && home(k) == j {
        assert k in c.index[j];
      }
    }
  }

  datatype Op =
    | OpSet(key: Key, entry: Entry, victim: Option<Key>)
    | OpInvalidate(installation: Inst)
    | OpEvict(lapsed: Key)

  predicate OpAllowed(c: Cache, op: Op) {
    op.OpSet? ==> MayEvict(c, op.key, op.victim)
  }

  function Apply(c: Cache, op: Op): Cache {
    match op
    case OpSet(k, e, victim) => SetAlone(c, k, e, victim)
    case OpInvalidate(i) => InvalidateAlone(c, i)
    case OpEvict(k) => Evict(c, k)
  }

  function ApplyAll(c: Cache, ops: seq<Op>): Cache
    decreases |ops|
  {
    if ops == [] then c else ApplyAll(Apply(c, ops[0]), ops[1..])
  }

  predicate AllAllowed(c: Cache, ops: seq<Op>)
    decreases |ops|
  {
    ops != [] ==> OpAllowed(c, ops[0]) && AllAllowed(Apply(c, ops[0]), ops[1..])
  }

  const EMPTY := Cache(map[], map[], map[])

  /** One operation at a time, with evictions anywhere between them, every cached entry
      is indexed; and when each key keeps one installation, nothing else is. */
  lemma {:induction false} IndexedAfterEveryRun(c: Cache, ops: seq<Op>, home: Key -> Inst)
    requires WellFormed(c) && AllIndexed(c) && AllAllowed(c, ops)
    ensures var d := ApplyAll(c, ops);
            && WellFormed(d) && AllIndexed(d)
            && (Tight(c, home) && (forall op | op in ops && op.OpSet? :: op.entry.installation == home(op.key))
                ==> Tight(d, home))
    decreases |ops|
  {
    if ops != [] {
      var op, rest := ops[0], ops[1..];
      match op {
        case OpSet(k, e, victim) => SetKeepsRest(c, k, e, victim, home);
        case OpInvalidate(i) => if i != "" { InvalidateAloneIsExact(c, i, home); }
        case OpEvict(k) => EvictKeepsRest(c, k, home);
      }
      IndexedAfterEveryRun(Apply(c, op), rest, home);
      assert op in ops && forall o | o in rest :: o in ops;
    }
  }
}
