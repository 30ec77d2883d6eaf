/** Bounded per-session memory against the full history it stands for: the fingerprint
    rings of internal/proxy/no_progress.go and the search-use counter of search_scope.go.
    Cache eviction (capacity or expiry) may strike any session between two calls. */
module SessionMemory {
  import opened Wrappers

  function Last<T>(s: seq<T>, n: nat): seq<T> {
    if |s| <= n then s else s[|s| - n..]
  }

  // ------------------------------------------------------------------ fingerprint rings ----

  const RING_SIZE := 8
  const MATCH_THRESHOLD := 5
  const TIME_WINDOW := 90_000_000_000

  datatype Entry<F(==)> = Entry(fp: F, at: int)

  // How many entries carry fp and are not older than the cutoff.
  function Matches<F(==)>(s: seq<Entry<F>>, fp: F, cutoff: int): nat {
    if s == [] then 0
    else Matches(s[..|s| - 1], fp, cutoff) + if s[|s| - 1].fp == fp && s[|s| - 1].at >= cutoff then 1 else 0
  }

  datatype Event<K, F(==)> = Recorded(key: K, entry: Entry<F>) | Evicted(key: K)

  // What has been recorded under key since it was last evicted.
  function Kept<K(==), F(==)>(events: seq<Event<K, F>>, key: K): seq<Entry<F>> {
    if events == [] then []
    else
      var before, e := Kept(events[..|events| - 1], key), events[|events| - 1];
      if e.key != key then before else if e.Evicted? then [] else before + [e.entry]
  }

  // Everything ever recorded under key.
  function Everything<K(==), F(==)>(events: seq<Event<K, F>>, key: K): seq<Entry<F>> {
    if events == [] then []
    else
      var before, e := Everything(events[..|events| - 1], key), events[|events| - 1];
      if e.key != key || e.Evicted? then before else before + [e.entry]
  }

  lemma LastOfGrown<T>(s: seq<T>, x: T, n: nat)
    requires n > 0
    ensures Last(Last(s, n) + [x], n) == Last(s + [x], n)
  { }

  method CountMatches<F(==)>(entries: seq<Entry<F>>, fp: F, cutoff: int) returns (n: nat)
    ensures n == Matches(entries, fp, cutoff)
  {
    n := 0;
    for i := 0 to |entries|
      invariant n == Matches(entries[..i], fp, cutoff)
    {
      assert entries[..i + 1][..i] == entries[..i];
      if entries[i].fp == fp && entries[i].at >= cutoff {
        n := n + 1;
      }
    }
    assert entries[..|entries|] == entries;
  }

  /** fingerprintRing: history is a ghost record of every entry; the ring holds its tail. */
  class FingerprintRing<F(==)> {
    var entries: seq<Entry<F>>
    ghost var history: seq<Entry<F>>

    ghost predicate Valid()
      reads this
    {
      entries == Last(history, RING_SIZE)
    }

    constructor ()
      ensures Valid() && history == []
    {
      entries, history := [], [];
    }

    /** Reports a loop exactly when at least five of the last eight recorded entries match
        within ninety seconds, the new one among them. */
    method RecordAndDetect(fp: F, now: int) returns (looped: bool, count: nat)
      requires Valid()
      modifies this
      ensures Valid() && history == old(history) + [Entry(fp, now)]
      ensures count == Matches(Last(history, RING_SIZE), fp, now - TIME_WINDOW)
      ensures looped <==> count >= MATCH_THRESHOLD
    {
      LastOfGrown(history, Entry(fp, now), RING_SIZE);
      entries := entries + [Entry(fp, now)];
      history := history + [Entry(fp, now)];
      if |entries| > RING_SIZE {
        entries := entries[|entries| - RING_SIZE..];
      }
      var cutoff := now - TIME_WINDOW;
      var n := CountMatches(entries, fp, cutoff);
      return n >= MATCH_THRESHOLD, n;
    }
  }

  /** noProgressTracker: one ring per bucket, held here by value since a ring is reached
      through its bucket only. */
  class NoProgressTracker<K(==, !new), F(==)> {
    var rings: map<K, seq<Entry<F>>>
    ghost var events: seq<Event<K, F>>

    ghost predicate Valid()
      reads this
    {
      && (forall k | k in rings :: rings[k] == Last(Kept(events, k), RING_SIZE))
      && (forall k | k !in rings :: Kept(events, k) == [])
    }

    constructor ()
      ensures Valid() && events == []
    {
      rings, events := map[], [];
    }

    method RecordAndDetect(key: Option<K>, fp: F, now: int) returns (looped: bool, count: nat)
      requires Valid()
      modifies this
      ensures Valid()
      ensures key.None? ==> events == old(events) && rings == old(rings) && !looped && count == 0
      ensures key.Some? ==>
        && events == old(events) + [Recorded(key.value, Entry(fp, now))]
        && count == Matches(Last(Kept(events, key.value), RING_SIZE), fp, now - TIME_WINDOW)
        && (looped <==> count >= MATCH_THRESHOLD)
    {
      if key.None? {
        return false, 0;
      }
      var k := key.value;
      var ring: seq<Entry<F>> := if k in rings then rings[k] else [];
      LastOfGrown(Kept(events, k), Entry(fp, now), RING_SIZE);
      ring := ring + [Entry(fp, now)];
      if |ring| > RING_SIZE {
        ring := ring[|ring| - RING_SIZE..];
      }
      RecordedUnder(events, k, Entry(fp, now));
      rings := rings[k := ring];
      events := events + [Recorded(k, Entry(fp, now))];
      var n := CountMatches(ring, fp, now - TIME_WINDOW);
      return n >= MATCH_THRESHOLD, n;
    }

    // The cache drops a bucket, for capacity or age.
    method Evict(key: K)
      requires Valid()
      modifies this
      ensures Valid() && events == old(events) + [Evicted(key)] && rings == old(rings) - {key}
    {
      EvictedUnder(events, key);
      rings := rings - {key};
      events := events + [Evicted(key)];
    }
  }

  lemma RecordedUnder<K, F>(events: seq<Event<K, F>>, k: K, e: Entry<F>)
    ensures Kept(events + [Recorded(k, e)], k) == Kept(events, k) + [e]
    ensures forall j | j != k :: Kept(events + [Recorded(k, e)], j) == Kept(events, j)
  {
    assert (events + [Recorded(k, e)])[..|events|] == events;
  }

  lemma EvictedUnder<K, F>(events: seq<Event<K, F>>, k: K)
    ensures Kept(events + [Event<K, F>.Evicted(k)], k) == []
    ensures forall j | j != k :: Kept(events + [Event<K, F>.Evicted(k)], j) == Kept(events, j)
  {
    assert (events + [Event<K, F>.Evicted(k)])[..|events|] == events;
  }

  predicate IsSuffix<T(==)>(a: seq<T>, b: seq<T>) {
    |a| <= |b| && a == b[|b| - |a|..]
  }

  lemma {:induction false} KeptIsRecent<K, F>(events: seq<Event<K, F>>, key: K)
    ensures IsSuffix(Kept(events, key), Everything(events, key))
    ensures Evicted(key) !in events ==> Kept(events, key) == Everything(events, key)
  {
    if events != [] {
      KeptIsRecent(events[..|events| - 1], key);
      assert events == events[..|events| - 1] + [events[|events| - 1]];
    }
  }

  lemma {:induction false} ShorterTailsMatchLess<F>(a: seq<Entry<F>>, b: seq<Entry<F>>, fp: F, cutoff: int)
    requires IsSuffix(a, b)
    ensures Matches(a, fp, cutoff) <= Matches(b, fp, cutoff)
  {
    if a != [] {
      var x, y := a[..|a| - 1], b[..|b| - 1];
      assert IsSuffix(x, y);
      ShorterTailsMatchLess(x, y, fp, cutoff);
    }
  }

  /** Losing a bucket only loses detections: what the ring counts is what the full history's
      last eight entries count when the bucket was never evicted, and never more than that
      when it was.  So a session is broken off only when its whole history would say so. */
  lemma EvictionNeverInventsALoop<K, F>(events: seq<Event<K, F>>, key: K, fp: F, cutoff: int)
    ensures var kept, all := Last(Kept(events, key), RING_SIZE), Last(Everything(events, key), RING_SIZE);
            && Matches(kept, fp, cutoff) <= Matches(all, fp, cutoff)
            && (Evicted(key) !in events ==> Matches(kept, fp, cutoff) == Matches(all, fp, cutoff))
  {
    KeptIsRecent(events, key);
    var kept, all := Last(Kept(events, key), RING_SIZE), Last(Everything(events, key), RING_SIZE);
    assert IsSuffix(kept, all);
    ShorterTailsMatchLess(kept, all, fp, cutoff);
  }

  // ----------------------------------------------------------------- search-use counter ----

  // The counter after a run of turns: each turn says how many turns back the request's own
  // history shows a search, or is negative when it shows none.
  function Counter(turns: seq<int>, decay: int): nat {
    if turns == [] then 0
    else
      var prior, recency := Counter(turns[..|turns| - 1], decay), turns[|turns| - 1];
      var remaining := if prior > 0 then prior - 1 else 0;
      if recency >= 0 && decay - recency > remaining then decay - recency else remaining
  }

  // What turn s's observation is still worth at the end of the run.
  function Worth(turns: seq<int>, decay: int, s: int): int
    requires 0 <= s < |turns|
  {
    if turns[s] < 0 then 0 else decay - turns[s] - (|turns| - 1 - s)
  }

  /** The one number kept per session is the largest worth of any observation in the whole
      history, and zero when none is worth anything. */
  lemma {:induction false} CounterIsTheBestObservation(turns: seq<int>, decay: int)
    ensures forall s | 0 <= s < |turns| :: Worth(turns, decay, s) <= Counter(turns, decay)
    ensures Counter(turns, decay) == 0
         || exists s :: 0 <= s < |turns| && Worth(turns, decay, s) == Counter(turns, decay)
  {
    if turns != [] {
      var n := |turns| - 1;
      var before := turns[..n];
      CounterIsTheBestObservation(before, decay);
      forall s | 0 <= s < |turns| ensures Worth(turns, decay, s) <= Counter(turns, decay) {
        if s < n { assert Worth(before, decay, s) <= Counter(before, decay); }
      }
      if Counter(turns, decay) > 0 {
        if turns[n] >= 0 && decay - turns[n] == Counter(turns, decay) {
          assert Worth(turns, decay, n) == Counter(turns, decay);
        } else {
          var s :| 0 <= s < |before| && Worth(before, decay, s) == Counter(before, decay);
          assert Worth(turns, decay, s) == Counter(turns, decay);
        }
      }
    }
  }

  // Some observed search lies fewer than decay turns back.
  predicate RecentlyUsed(turns: seq<int>, decay: int) {
    exists s :: 0 <= s < |turns| && turns[s] >= 0 && turns[s] + (|turns| - 1 - s) < decay
  }

  lemma PositiveExactlyWhenRecent(turns: seq<int>, decay: int)
    ensures Counter(turns, decay) > 0 <==> RecentlyUsed(turns, decay)
  {
    CounterIsTheBestObservation(turns, decay);
    if RecentlyUsed(turns, decay) {
      var s :| 0 <= s < |turns| && turns[s] >= 0 && turns[s] + (|turns| - 1 - s) < decay;
      assert Worth(turns, decay, s) <= Counter(turns, decay);
    }
    if Counter(turns, decay) > 0 {
      var s :| 0 <= s < |turns| && Worth(turns, decay, s) == Counter(turns, decay);
      assert turns[s] >= 0 && turns[s] + (|turns| - 1 - s) < decay;
    }
  }

  /** Forgetting a session's early turns can only drop the requirement, never raise it. */
  lemma ForgettingOnlyDrops(turns: seq<int>, kept: seq<int>, decay: int)
    requires IsSuffix(kept, turns) && RecentlyUsed(kept, decay)
    ensures RecentlyUsed(turns, decay)
  {
    var s :| 0 <= s < |kept| && kept[s] >= 0 && kept[s] + (|kept| - 1 - s) < decay;
    var t := s + |turns| - |kept|;
    assert turns[t] == kept[s];
  }

  // What the tracker holds of one session.
  ghost predicate Tracks(counter: nat, since: seq<int>, all: seq<int>, decay: int) {
    counter == Counter(since, decay) && IsSuffix(since, all)
  }

  lemma NothingTracked(all: seq<int>, decay: int)
    ensures Tracks(0, [], all, decay)
  { }

  // One more turn, told of the counter and of both records.
  lemma OneMoreTurn(counter: nat, since: seq<int>, all: seq<int>, recency: int, decay: int, next: nat)
    requires Tracks(counter, since, all, decay)
    requires next == var remaining := if counter > 0 then counter - 1 else 0;
                     if recency >= 0 && decay - recency > remaining then decay - recency else remaining
    ensures Tracks(next, since + [recency], all + [recency], decay)
    ensures next > 0 <==> RecentlyUsed(since + [recency], decay)
    ensures RecentlyUsed(since + [recency], decay) ==> RecentlyUsed(all + [recency], decay)
  {
    assert (since + [recency])[..|since|] == since;
    PositiveExactlyWhenRecent(since + [recency], decay);
    if RecentlyUsed(since + [recency], decay) { ForgettingOnlyDrops(all + [recency], since + [recency], decay); }
  }

  /** searchUseTracker: since is a ghost record of each cached session's turns since it was
      last evicted, and all of every session's turns ever. */
  class SearchUseTracker<K(==)> {
    const decayTurns: int
    var cache: map<K, nat>
    ghost var since: map<K, seq<int>>
    ghost var all: map<K, seq<int>>

    ghost predicate Valid()
      reads this
    {
      && cache.Keys == since.Keys && since.Keys <= all.Keys
      && forall k | k in cache :: Tracks(cache[k], since[k], all[k], decayTurns)
    }

    constructor (decayTurns: int)
      ensures Valid() && this.decayTurns == decayTurns && since == map[] && all == map[]
    {
      this.decayTurns := decayTurns;
      cache, since, all := map[], map[], map[];
    }

    /** The requirement stays alive exactly while a search since the last eviction lies fewer
        than decayTurns turns back, or happens this turn; so never without one in the whole
        history, and exactly by the whole history for a session never evicted. */
    method Observe(key: K, recency: int) returns (active: bool)
      requires Valid()
      modifies this
      ensures Valid()
      ensures since == old(since)[key := (if key in old(since) then old(since)[key] else []) + [recency]]
      ensures all == old(all)[key := (if key in old(all) then old(all)[key] else []) + [recency]]
      ensures active <==> recency == 0 || RecentlyUsed(since[key], decayTurns)
      ensures active ==> recency == 0 || RecentlyUsed(all[key], decayTurns)
      ensures since[key] == all[key] ==> (active <==> recency == 0 || RecentlyUsed(all[key], decayTurns))
    {
      hide Tracks, RecentlyUsed;
      var remaining := 0;
      if key in cache && cache[key] > 0 {
        remaining := cache[key] - 1;
      }
      if recency >= 0 && decayTurns - recency > remaining {
        remaining := decayTurns - recency;
      }
      ghost var before := if key in since then since[key] else [];
      ghost var ever := if key in all then all[key] else [];
      NothingTracked(ever, decayTurns);
      OneMoreTurn(if key in cache then cache[key] else 0, before, ever, recency, decayTurns, remaining);
      cache := cache[key := remaining];
      since := since[key := before + [recency]];
      all := all[key := ever + [recency]];
      active := recency == 0 || remaining > 0;
    }

    method Evict(key: K)
      requires Valid()
      modifies this
      ensures Valid() && since == old(since) - {key} && all == old(all)
    {
      cache, since := cache - {key}, since - {key};
    }
  }
}
