/** The API-key cache of internal/auth/apikey_cache.go as an object, its operations run
    one at a time. */
module ApiKeyCache {
  import opened Wrappers
  import opened InvalidationCache

  class LRUAPIKeyCache {
    var positive: map<Key, Entry>
    var negative: map<Key, int>
    var byInstallation: map<Inst, set<Key>>
    var invalidationGen: map<Inst, nat>

    // What the protocol of InvalidationCache is about; negative entries are no part of it.
    ghost function View(): Cache
      reads this
    {
      Cache(positive, byInstallation, invalidationGen)
    }

    ghost predicate Valid()
      reads this
    {
      WellFormed(View()) && AllIndexed(View())
    }

    constructor ()
      ensures Valid() && View() == EMPTY && negative == map[]
    {
      positive, negative, byInstallation, invalidationGen := map[], map[], map[], map[];
    }

    // The payload of a hit and whether it is a positive entry.
    method Get(k: Key) returns (hit: Option<(int, bool)>)
      ensures hit == if k in positive then Some((positive[k].payload, true))
                     else if k in negative then Some((negative[k], false))
                     else None
    {
      if k in positive {
        return Some((positive[k].payload, true));
      }
      if k in negative {
        return Some((negative[k], false));
      }
      return None;
    }

    // The eviction callback, called with the entry the LRU let go of.
    method OnPositiveEvict(k: Key, e: Entry)
      modifies this`byInstallation
      ensures byInstallation == if e.installation == "" then old(byInstallation)
                                else IndexDrop(old(byInstallation), e.installation, k)
    {
      if e.installation == "" || e.installation !in byInstallation {
        return;
      }
      var hashes := byInstallation[e.installation] - {k};
      if |hashes| == 0 {
        byInstallation := byInstallation - {e.installation};
      } else {
        byInstallation := byInstallation[e.installation := hashes];
      }
    }

    // positive.Remove, and likewise a capacity eviction or an expiry.
    method Remove(k: Key)
      modifies this`positive, this`byInstallation
      ensures View() == Evict(old(View()), k)
    {
      if k in positive {
        var e := positive[k];
        positive := positive - {k};
        OnPositiveEvict(k, e);
      }
    }

    // The three critical sections of Set; each is one step of CacheProtocol.

    method IndexUnderLock(k: Key, i: Inst) returns (preGen: nat)
      modifies this`byInstallation
      ensures View() == if i == "" then old(View()) else IndexStep(old(View()), k, i)
      ensures preGen == if i == "" then 0 else GenOf(View(), i)
    {
      preGen := 0;
      if i != "" {
        preGen := if i in invalidationGen then invalidationGen[i] else 0;
        var hashes := if i in byInstallation then byInstallation[i] else {};
        byInstallation := byInstallation[i := hashes + {k}];
      }
    }

    method Add(k: Key, e: Entry, victim: Option<Key>)
      requires MayEvict(View(), k, victim)
      modifies this`positive, this`byInstallation
      ensures View() == Insert(old(View()), k, e, victim)
    {
      positive := positive[k := e];
      if victim.Some? {
        Remove(victim.value);
      }
    }

    method RecheckUnderLock(k: Key, i: Inst, preGen: nat)
      modifies this`positive, this`byInstallation
      ensures View() == if GenOf(old(View()), i) == preGen then old(View())
                        else Evict(old(View()).(index := IndexDrop(old(byInstallation), i, k)), k)
    {
      var gen := if i in invalidationGen then invalidationGen[i] else 0;
      if gen != preGen {
        if i in byInstallation {
          var hashes := byInstallation[i] - {k};
          byInstallation := if |hashes| == 0 then byInstallation - {i} else byInstallation[i := hashes];
        }
        Remove(k);
      }
    }

    method Set(k: Key, e: Entry, isNegative: bool, victim: Option<Key>)
      requires Valid() && MayEvict(View(), k, victim)
      modifies this
      ensures Valid()
      ensures isNegative ==> View() == old(View()) && negative == old(negative)[k := e.payload]
      ensures !isNegative ==> View() == SetAlone(old(View()), k, e, victim) && negative == old(negative)
    {
      if isNegative {
        negative := negative[k := e.payload];
        return;
      }
      SetKeepsRest(View(), k, e, victim, _ => "");
      var preGen := IndexUnderLock(k, e.installation);
      Add(k, e, victim);
      if e.installation == "" {
        return;
      }
      RecheckUnderLock(k, e.installation, preGen);
    }

    // The removals of InvalidateInstallation, after it has let go of the lock.
    method RemoveAll(hashes: set<Key>)
      requires WellFormed(View())
      modifies this`positive, this`byInstallation
      ensures View() == EvictAll(old(View()), hashes)
    {
      hide WellFormed, EvictAll, Evict;
      var left := hashes;
      ghost var taken, done: set<Key> := View(), {};
      EvictNone(taken);
      while left != {}
        invariant done !! left && done + left == hashes
        invariant View() == EvictAll(taken, done)
        decreases |left|
      {
        var hash :| hash in left;
        EvictAlone(taken, done, hash);
        Remove(hash);
        left := left - {hash};
        done := done + {hash};
      }
      assert done == hashes;
    }

    method InvalidateInstallation(i: Inst)
      requires Valid()
      modifies this
      ensures Valid()
      ensures View() == InvalidateAlone(old(View()), i) && negative == old(negative)
    {
      hide EvictAll, AllIndexed;
      if i == "" {
        return;
      }
      InvalidateAloneIsExact(View(), i, _ => "");
      var hashes := if i in byInstallation then byInstallation[i] else {};
      byInstallation := byInstallation - {i};
      invalidationGen := invalidationGen[i := (if i in invalidationGen then invalidationGen[i] else 0) + 1];
      RemoveAll(hashes);
    }
  }
}
